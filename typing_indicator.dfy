/** The typing-indicator tracker of hooks/use-typing-indicator.ts.

    The hook keeps the set of remote users shown as typing and, per user, the
    handle of the timer that will take that user off the set. The JavaScript
    runtime's timer queue is part of the state here (`pending`, handle to the
    callback's user and due time), with a logical millisecond clock `now`,
    so that "a cancelled timer never runs" and "a user disappears 2000 ms
    after their last typing event" can be stated.

    `TypingState` and the `After...` functions are the specification; the
    class `TypingTracker` holds the same state in fields and its methods are
    proved to change it as those functions say. */
module TypingIndicator {
  import opened Wrappers
  import opened Channel

  /** `TYPING_TIMEOUT`: how long a typing event keeps its user shown, in ms. */
  const TYPING_TIMEOUT: nat := 2000

  /** A callback queued with `setTimeout`: it will clear `user`, and the
      runtime runs it once the clock reaches `deadline`. */
  datatype Timeout = Timeout(user: string, deadline: nat)

  datatype TypingState = TypingState(
    nickname: string,              // the local user
    names: ChatNames,
    typing: set<string>,           // `typingUsers`
    timers: map<string, nat>,      // `timeoutsRef.current`: user to timer handle
    pending: map<nat, Timeout>,    // the runtime's queued timer callbacks
    nextHandle: nat,               // the handle the next `setTimeout` returns
    now: nat,                      // logical clock, in ms
    mounted: bool,                 // `mounted.current`
    bound: bool,                   // `channelRef.current != null`
    log: seq<ChannelOp>)           // broker calls made so far

  /** The calls the effect makes when it subscribes (lines 84-112). */
  function SubscribeCalls(nickname: string, names: ChatNames): (calls: seq<ChannelOp>)
    ensures |calls| == 6
    ensures calls[0] == SetUserData(nickname) && calls[1] == Subscribe(names.chat)
    ensures forall i :: 2 <= i < |calls| ==> calls[i].Bind?
    ensures forall e :: Bind(e) in calls <==> e in {names.typingEvent, SUBSCRIPTION_SUCCEEDED, SUBSCRIPTION_ERROR, MEMBER_REMOVED}
  {
    [SetUserData(nickname), Subscribe(names.chat), Bind(names.typingEvent),
     Bind(SUBSCRIPTION_SUCCEEDED), Bind(SUBSCRIPTION_ERROR), Bind(MEMBER_REMOVED)]
  }

  /** Every user's handle names a queued callback for that user, and every
      queued callback is the one its user's entry names. */
  predicate TimersMatchPending(s: TypingState)
  {
    && (forall u :: u in s.timers ==> s.timers[u] in s.pending && s.pending[s.timers[u]].user == u)
    && (forall h :: h in s.pending ==> s.pending[h].user in s.timers && s.timers[s.pending[h].user] == h)
  }

  /** The tracker's invariant. */
  predicate Inv(s: TypingState)
  {
    && (s.mounted ==> s.typing == s.timers.Keys)
    && (!s.mounted ==> s.timers == map[] && s.pending == map[])
    && s.nickname !in s.typing
    && s.nickname !in s.timers
    && TimersMatchPending(s)
    && (forall h :: h in s.pending ==>
          h < s.nextHandle && s.now <= s.pending[h].deadline <= s.now + TYPING_TIMEOUT)
  }

  /** The state after the hook's first render and its effect (lines 13-16,
      74 and 76-121): nothing shown, no timers, and a subscription only when
      the nickname is non-empty. A throw inside the subscription's `try`
      is logged and leaves the calls made before it. */
  function Initial(nickname: string, names: ChatNames, outcome: CallOutcome): (s: TypingState)
    requires nickname != "" ==> Fits(SubscribeCalls(nickname, names), outcome)
    ensures s.nickname == nickname && s.names == names && s.mounted
    ensures s.typing == {} && s.timers == map[] && s.pending == map[]
    ensures nickname == "" ==> s.log == [] && !s.bound
    ensures s.log <= SubscribeCalls(nickname, names)
    ensures s.bound <==> Subscribe(names.chat) in s.log
    ensures outcome.Completes? && nickname != "" ==> s.log == SubscribeCalls(nickname, names)
    ensures Inv(s)
  {
    var calls := if nickname == "" then [] else Completed(SubscribeCalls(nickname, names), outcome);
    assert |calls| >= 2 ==> calls[1] == Subscribe(names.chat);
    assert |calls| < 2 ==> forall i :: 0 <= i < |calls| ==> calls[i] == SetUserData(nickname);
    TypingState(nickname, names, {}, map[], map[], 0, 0, true, |calls| >= 2, calls)
  }

  /** `clearTypingTimeout(user)` (lines 18-24): cancel the user's timer and
      forget its handle; a no-op when the user has none. */
  function AfterClear(s: TypingState, user: string): (r: TypingState)
    ensures user !in r.timers
    ensures r.timers == s.timers - {user}
    ensures user in s.timers ==> r.pending == s.pending - {s.timers[user]}
    ensures user !in s.timers ==> r == s
    ensures r.typing == s.typing && r.now == s.now && r.mounted == s.mounted
    ensures r.nickname == s.nickname && r.names == s.names
    ensures r.nextHandle == s.nextHandle && r.log == s.log && r.bound == s.bound
  {
    if user in s.timers then
      s.(timers := s.timers - {user}, pending := s.pending - {s.timers[user]})
    else s
  }

  /** `handleTyping({user})` (lines 26-48). Ignored after unmount and for the
      local user; otherwise the user is shown and its timer restarted: the old
      one is cancelled before a new one, due in `TYPING_TIMEOUT`, is queued. */
  function AfterTyping(s: TypingState, user: string): (r: TypingState)
    ensures !s.mounted || user == s.nickname ==> r == s
    ensures s.mounted && user != s.nickname ==>
      && r.typing == s.typing + {user}
      && r.timers.Keys == s.timers.Keys + {user}
      && (forall v :: v in s.timers && v != user ==> r.timers[v] == s.timers[v])
      && r.timers[user] == s.nextHandle
      && r.nextHandle == s.nextHandle + 1
      && r.pending ==
           (if user in s.timers then s.pending - {s.timers[user]} else s.pending)
             [s.nextHandle := Timeout(user, s.now + TYPING_TIMEOUT)]
      && r.now == s.now && r.mounted && r.log == s.log && r.bound == s.bound
      && r.nickname == s.nickname && r.names == s.names
  {
    if !s.mounted || user == s.nickname then s
    else
      var cleared := AfterClear(s.(typing := s.typing + {user}), user);
      var handle := cleared.nextHandle;
      cleared.(pending := cleared.pending[handle := Timeout(user, cleared.now + TYPING_TIMEOUT)],
               timers := cleared.timers[user := handle],
               nextHandle := handle + 1)
  }

  /** The runtime runs the queued callback `handle` (the closure of lines
      37-45): it leaves the queue, and while mounted its user leaves both the
      typing set and the handle map. */
  function AfterExpiry(s: TypingState, handle: nat): (r: TypingState)
    requires handle in s.pending
    ensures r.pending == s.pending - {handle}
    ensures s.mounted ==>
      && r.typing == s.typing - {s.pending[handle].user}
      && r.timers == s.timers - {s.pending[handle].user}
    ensures !s.mounted ==> r.typing == s.typing && r.timers == s.timers
    ensures r.now == s.now && r.mounted == s.mounted && r.log == s.log && r.bound == s.bound
    ensures r.nickname == s.nickname && r.names == s.names && r.nextHandle == s.nextHandle
  {
    var user := s.pending[handle].user;
    var fired := s.(pending := s.pending - {handle});
    if !s.mounted then fired
    else fired.(typing := fired.typing - {user}, timers := fired.timers - {user})
  }

  /** The `pusher:member_removed` handler (lines 103-112): a member whose
      `info.nickname` is a non-empty string stops being shown at once and its
      timer is cancelled; without one nothing changes. */
  function AfterMemberRemoved(s: TypingState, nickname: Option<string>): (r: TypingState)
    ensures !Truthy(nickname) ==> r == s
    ensures Truthy(nickname) ==>
      && r.typing == s.typing - {nickname.value}
      && r.timers == s.timers - {nickname.value}
      && r.pending == (if nickname.value in s.timers then s.pending - {s.timers[nickname.value]} else s.pending)
    ensures r.now == s.now && r.mounted == s.mounted && r.log == s.log && r.bound == s.bound
    ensures r.nickname == s.nickname && r.names == s.names && r.nextHandle == s.nextHandle
  {
    if Truthy(nickname) then
      AfterClear(s.(typing := s.typing - {nickname.value}), nickname.value)
    else s
  }

  /** The effect's cleanup (lines 123-136): unmount, cancel every queued
      timer (`forEach(clearTimeout)`), forget all handles, and, when a
      channel is held, unbind everything before unsubscribing and drop it. */
  function AfterTeardown(s: TypingState): (r: TypingState)
    ensures !r.mounted && !r.bound && r.timers == map[]
    ensures r.pending.Keys == s.pending.Keys - s.timers.Values
    ensures forall h :: h in r.pending ==> r.pending[h] == s.pending[h]
    ensures r.log == if s.bound then s.log + ReleaseCalls(s.names.chat) else s.log
    ensures r.typing == s.typing && r.now == s.now && r.nextHandle == s.nextHandle
    ensures r.nickname == s.nickname && r.names == s.names
  {
    s.(mounted := false,
       pending := map h | h in s.pending && h !in s.timers.Values :: s.pending[h],
       timers := map[],
       log := if s.bound then s.log + ReleaseCalls(s.names.chat) else s.log,
       bound := false)
  }

  /** No queued callback is due: the clock may move on. */
  predicate NoneDue(s: TypingState)
  {
    forall h :: h in s.pending ==> s.now < s.pending[h].deadline
  }

  /** One millisecond passes. The runtime runs a due callback before time
      moves past its deadline, so this needs `NoneDue`. */
  function AfterTick(s: TypingState): (r: TypingState)
    requires NoneDue(s)
    ensures r.now == s.now + 1
    ensures r.(now := s.now) == s
  {
    s.(now := s.now + 1)
  }

  // ---------------------------------------------------------------------
  // Each transition keeps the invariant.

  lemma InitialKeepsInv(nickname: string, names: ChatNames, outcome: CallOutcome)
    requires nickname != "" ==> Fits(SubscribeCalls(nickname, names), outcome)
    ensures Inv(Initial(nickname, names, outcome))
  {
  }

  lemma {:induction false} TypingKeepsInv(s: TypingState, user: string)
    requires Inv(s)
    ensures Inv(AfterTyping(s, user))
  {
    if s.mounted && user != s.nickname {
      var r := AfterTyping(s, user);
      assert s.nextHandle !in s.pending;
      forall h | h in r.pending
        ensures r.pending[h].user in r.timers && r.timers[r.pending[h].user] == h
      {
        if h != s.nextHandle {
          assert h in s.pending && r.pending[h] == s.pending[h];
          assert s.pending[h].user != user;
        }
      }
    }
  }

  lemma {:induction false} ExpiryKeepsInv(s: TypingState, handle: nat)
    requires Inv(s) && handle in s.pending
    ensures Inv(AfterExpiry(s, handle))
  {
    var r := AfterExpiry(s, handle);
    var user := s.pending[handle].user;
    forall h | h in r.pending
      ensures r.pending[h].user in r.timers && r.timers[r.pending[h].user] == h
    {
      assert s.pending[h].user != user;
    }
  }

  lemma {:induction false} MemberRemovedKeepsInv(s: TypingState, nickname: Option<string>)
    requires Inv(s)
    ensures Inv(AfterMemberRemoved(s, nickname))
  {
    if Truthy(nickname) {
      var r := AfterMemberRemoved(s, nickname);
      var n := nickname.value;
      forall h | h in r.pending
        ensures r.pending[h].user in r.timers && r.timers[r.pending[h].user] == h
      {
        assert h in s.pending && r.pending[h] == s.pending[h];
        assert s.pending[h].user != n;
      }
    }
  }

  lemma TickKeepsInv(s: TypingState)
    requires Inv(s) && NoneDue(s)
    ensures Inv(AfterTick(s))
  {
  }

  lemma {:induction false} TeardownKeepsInv(s: TypingState)
    requires Inv(s)
    ensures Inv(AfterTeardown(s))
  {
    TeardownCancelsEveryTimer(s);
  }

  // ---------------------------------------------------------------------
  // The properties the hook promises.

  /** Teardown leaves no handle and no queued callback: nothing leaks. */
  lemma {:induction false} TeardownCancelsEveryTimer(s: TypingState)
    requires Inv(s)
    ensures AfterTeardown(s).pending == map[] && AfterTeardown(s).timers == map[]
  {
    var r := AfterTeardown(s);
    forall h | h in s.pending ensures h !in r.pending {
      var u := s.pending[h].user;
      assert u in s.timers && s.timers[u] == h;
    }
  }

  /** Each user has at most one queued callback. */
  lemma AtMostOneTimerPerUser(s: TypingState, h1: nat, h2: nat)
    requires Inv(s)
    requires h1 in s.pending && h2 in s.pending && s.pending[h1].user == s.pending[h2].user
    ensures h1 == h2
  {
  }

  /** Repeated typing events extend, they do not stack: afterwards the user's
      one queued callback is the new one, due a full timeout from now, and the
      callback queued before, if any, is gone. */
  lemma {:induction false} TypingRestartsTimer(s: TypingState, user: string)
    requires Inv(s) && s.mounted && user != s.nickname
    ensures var r := AfterTyping(s, user);
      && user in r.typing && user in r.timers
      && r.pending[r.timers[user]] == Timeout(user, s.now + TYPING_TIMEOUT)
      && (forall h :: h in r.pending && r.pending[h].user == user ==> h == r.timers[user])
      && (user in s.timers ==> s.timers[user] !in r.pending)
  {
    TypingKeepsInv(s, user);
  }

  /** Cancelling a timer touches only that user's entry. */
  lemma ClearLeavesOthers(s: TypingState, user: string, other: string)
    requires other != user
    ensures other in AfterClear(s, user).timers <==> other in s.timers
    ensures other in s.timers ==> AfterClear(s, user).timers[other] == s.timers[other]
  {
  }

  /** A member that leaves stops being shown even if its timer has not run,
      and no callback for it stays queued. */
  lemma {:induction false} MemberRemovedCancelsTimer(s: TypingState, nickname: string)
    requires Inv(s) && nickname != ""
    ensures var r := AfterMemberRemoved(s, Some(nickname));
      && nickname !in r.typing && nickname !in r.timers
      && (forall h :: h in r.pending ==> r.pending[h].user != nickname)
  {
    MemberRemovedKeepsInv(s, Some(nickname));
  }

  // ---------------------------------------------------------------------
  // Runs: the hook's events in any order the environment delivers them.

  datatype TypingEvent =
    | Typing(user: string)                // an inbound typing event
    | Expiry(handle: nat)                 // the runtime runs a queued callback
    | MemberLeft(nickname: Option<string>)  // `pusher:member_removed` with its `info.nickname`
    | Tick                                // one millisecond passes
    | Unmount                             // the effect's cleanup

  /** What the runtime can deliver: only a queued callback that is due runs,
      and time moves on only when no callback is due. */
  predicate Enabled(s: TypingState, e: TypingEvent)
  {
    match e
    case Expiry(h) => h in s.pending && s.pending[h].deadline <= s.now
    case Tick => NoneDue(s)
    case _ => true
  }

  /** One event; an event the runtime cannot deliver does not happen. */
  function Step(s: TypingState, e: TypingEvent): (r: TypingState)
    ensures !Enabled(s, e) ==> r == s
  {
    if !Enabled(s, e) then s
    else match e
      case Typing(user) => AfterTyping(s, user)
      case Expiry(h) => AfterExpiry(s, h)
      case MemberLeft(nickname) => AfterMemberRemoved(s, nickname)
      case Tick => AfterTick(s)
      case Unmount => AfterTeardown(s)
  }

  function Run(s: TypingState, events: seq<TypingEvent>): TypingState
    decreases |events|
  {
    if events == [] then s else Run(Step(s, events[0]), events[1..])
  }

  lemma {:induction false} StepKeepsInv(s: TypingState, e: TypingEvent)
    requires Inv(s)
    ensures Inv(Step(s, e))
    ensures Step(s, e).now >= s.now && Step(s, e).nickname == s.nickname
  {
    if Enabled(s, e) {
      match e
      case Typing(user) => TypingKeepsInv(s, user);
      case Expiry(h) => ExpiryKeepsInv(s, h);
      case MemberLeft(nickname) => MemberRemovedKeepsInv(s, nickname);
      case Tick => TickKeepsInv(s);
      case Unmount => TeardownKeepsInv(s);
    }
  }

  /** The invariant holds after any run: while mounted the shown users are
      exactly those with a timer, the local user is never shown, and each
      user has at most one queued callback. */
  lemma {:induction false} RunKeepsInv(s: TypingState, events: seq<TypingEvent>)
    requires Inv(s)
    ensures Inv(Run(s, events))
    ensures Run(s, events).nickname == s.nickname
    decreases |events|
  {
    if events != [] {
      StepKeepsInv(s, events[0]);
      RunKeepsInv(Step(s, events[0]), events[1..]);
    }
  }

  /** The user's callback, if any, is due by `limit`. */
  predicate DueBy(s: TypingState, user: string, limit: nat)
  {
    user in s.timers && s.timers[user] in s.pending ==> s.pending[s.timers[user]].deadline <= limit
  }

  lemma {:induction false} StepKeepsDueBy(s: TypingState, e: TypingEvent, user: string, limit: nat)
    requires Inv(s) && DueBy(s, user, limit) && e != Typing(user)
    ensures DueBy(Step(s, e), user, limit)
  {
    if Enabled(s, e) {
      match e
      case Typing(v) =>
        var r := AfterTyping(s, v);
        if s.mounted && v != s.nickname && user in r.timers {
          assert r.timers[user] == s.timers[user];
          assert s.timers[user] != s.nextHandle;
        }
      case Expiry(h) =>
      case MemberLeft(nickname) =>
      case Tick =>
      case Unmount =>
    }
  }

  lemma {:induction false} RunKeepsDueBy(s: TypingState, events: seq<TypingEvent>, user: string, limit: nat)
    requires Inv(s) && DueBy(s, user, limit)
    requires forall i :: 0 <= i < |events| ==> events[i] != Typing(user)
    ensures DueBy(Run(s, events), user, limit)
    decreases |events|
  {
    if events != [] {
      StepKeepsInv(s, events[0]);
      StepKeepsDueBy(s, events[0], user, limit);
      RunKeepsDueBy(Step(s, events[0]), events[1..], user, limit);
    }
  }

  /** A typing event's user is gone once `TYPING_TIMEOUT` ms have passed
      without another typing event from them, whatever else happens. */
  lemma {:induction false} ExpiresAfterTimeout(s: TypingState, user: string, events: seq<TypingEvent>)
    requires Inv(s) && s.mounted && user != s.nickname
    requires forall i :: 0 <= i < |events| ==> events[i] != Typing(user)
    ensures var r := Run(AfterTyping(s, user), events);
      r.now > s.now + TYPING_TIMEOUT ==> user !in r.timers && (r.mounted ==> user !in r.typing)
  {
    var start := AfterTyping(s, user);
    TypingKeepsInv(s, user);
    RunKeepsInv(start, events);
    RunKeepsDueBy(start, events, user, s.now + TYPING_TIMEOUT);
  }

  /** While the user's timer (due at `limit`) has not run out, the user stays
      shown. */
  predicate ShownUntil(s: TypingState, user: string, limit: nat)
  {
    && limit <= s.now + TYPING_TIMEOUT
    && (s.now < limit ==>
          s.mounted && user in s.timers && s.timers[user] in s.pending
          && s.pending[s.timers[user]].deadline >= limit)
  }

  lemma {:induction false} StepKeepsShownUntil(s: TypingState, e: TypingEvent, user: string, limit: nat)
    requires Inv(s) && ShownUntil(s, user, limit)
    requires e != Unmount && e != MemberLeft(Some(user))
    ensures ShownUntil(Step(s, e), user, limit)
  {
    if Enabled(s, e) && s.now < limit {
      match e
      case Typing(v) =>
      case Expiry(h) =>
        assert s.pending[h].deadline < limit;
        assert s.timers[user] != h;
      case MemberLeft(nickname) =>
      case Tick =>
      case Unmount =>
    }
  }

  lemma {:induction false} RunKeepsShownUntil(s: TypingState, events: seq<TypingEvent>, user: string, limit: nat)
    requires Inv(s) && ShownUntil(s, user, limit)
    requires forall i :: 0 <= i < |events| ==> events[i] != Unmount && events[i] != MemberLeft(Some(user))
    ensures ShownUntil(Run(s, events), user, limit)
    decreases |events|
  {
    if events != [] {
      StepKeepsInv(s, events[0]);
      StepKeepsShownUntil(s, events[0], user, limit);
      RunKeepsShownUntil(Step(s, events[0]), events[1..], user, limit);
    }
  }

  /** No premature removal: unless the user leaves or the hook unmounts, a
      typing event keeps its user shown for the whole timeout. */
  lemma {:induction false} ShownForTimeout(s: TypingState, user: string, events: seq<TypingEvent>)
    requires Inv(s) && s.mounted && user != s.nickname
    requires forall i :: 0 <= i < |events| ==> events[i] != Unmount && events[i] != MemberLeft(Some(user))
    ensures var r := Run(AfterTyping(s, user), events);
      r.now < s.now + TYPING_TIMEOUT ==> user in r.typing
  {
    var start := AfterTyping(s, user);
    TypingKeepsInv(s, user);
    RunKeepsInv(start, events);
    RunKeepsShownUntil(start, events, user, s.now + TYPING_TIMEOUT);
  }

  /** After unmount no event shows anyone new and no timer is ever queued. */
  lemma {:induction false} UnmountedStaysQuiet(s: TypingState, events: seq<TypingEvent>)
    requires Inv(s) && !s.mounted
    ensures var r := Run(s, events);
      !r.mounted && r.timers == map[] && r.pending == map[] && r.typing <= s.typing
    decreases |events|
  {
    if events != [] {
      StepKeepsInv(s, events[0]);
      UnmountedStaysQuiet(Step(s, events[0]), events[1..]);
    }
  }

  // ---------------------------------------------------------------------
  // The hook itself, its state held in fields and changed in place.

  class TypingTracker {
    const nickname: string
    const names: ChatNames
    var typing: set<string>
    var timers: map<string, nat>
    var pending: map<nat, Timeout>
    var nextHandle: nat
    var now: nat
    var mounted: bool
    var bound: bool
    var log: seq<ChannelOp>

    function Model(): TypingState
      reads this
    {
      TypingState(nickname, names, typing, timers, pending, nextHandle, now, mounted, bound, log)
    }

    ghost predicate Valid()
      reads this
    {
      Inv(Model())
    }

    /** First render and the effect's set-up. */
    constructor (nickname: string, names: ChatNames, outcome: CallOutcome)
      requires nickname != "" ==> Fits(SubscribeCalls(nickname, names), outcome)
      ensures Valid()
      ensures Model() == Initial(nickname, names, outcome)
    {
      this.nickname := nickname;
      this.names := names;
      typing := {};
      timers := map[];
      pending := map[];
      nextHandle := 0;
      now := 0;
      mounted := true;
      bound := false;
      log := [];
      new;
      if nickname != "" {
        SubscribeToChannel(outcome);
      }
    }

    /** `subscribeToChannel` past its nickname guard: the calls up to the
        first that throws are made; `channelRef` is set once `subscribe`
        has returned. */
    method SubscribeToChannel(outcome: CallOutcome)
      requires Fits(SubscribeCalls(nickname, names), outcome)
      modifies this
      ensures log == old(log) + Completed(SubscribeCalls(nickname, names), outcome)
      ensures bound == (old(bound) || |Completed(SubscribeCalls(nickname, names), outcome)| >= 2)
      ensures typing == old(typing) && timers == old(timers) && pending == old(pending)
      ensures nextHandle == old(nextHandle) && now == old(now) && mounted == old(mounted)
    {
      var done := Completed(SubscribeCalls(nickname, names), outcome);
      log := log + done;
      if |done| >= 2 {
        bound := true;
      }
    }

    method ClearTypingTimeout(user: string)
      modifies this
      ensures Model() == AfterClear(old(Model()), user)
    {
      if user in timers {
        pending := pending - {timers[user]};   // clearTimeout
        timers := timers - {user};
      }
    }

    method HandleTyping(user: string)
      requires Valid()
      modifies this
      ensures Valid()
      ensures Model() == AfterTyping(old(Model()), user)
    {
      TypingKeepsInv(Model(), user);
      if !mounted || user == nickname {
        return;
      }
      typing := typing + {user};
      ClearTypingTimeout(user);
      var handle := nextHandle;   // setTimeout
      pending := pending[handle := Timeout(user, now + TYPING_TIMEOUT)];
      nextHandle := nextHandle + 1;
      timers := timers[user := handle];
    }

    /** The runtime runs the queued callback `handle`, which is due. */
    method Expire(handle: nat)
      requires Valid() && handle in pending && pending[handle].deadline <= now
      modifies this
      ensures Valid()
      ensures Model() == AfterExpiry(old(Model()), handle)
    {
      ExpiryKeepsInv(Model(), handle);
      var user := pending[handle].user;
      pending := pending - {handle};
      if mounted {
        typing := typing - {user};
        timers := timers - {user};
      }
    }

    method HandleMemberRemoved(memberNickname: Option<string>)
      requires Valid()
      modifies this
      ensures Valid()
      ensures Model() == AfterMemberRemoved(old(Model()), memberNickname)
    {
      MemberRemovedKeepsInv(Model(), memberNickname);
      if Truthy(memberNickname) {
        typing := typing - {memberNickname.value};
        ClearTypingTimeout(memberNickname.value);
      }
    }

    /** One millisecond passes; no callback is due. */
    method Tick()
      requires Valid() && NoneDue(Model())
      modifies this
      ensures Valid()
      ensures Model() == AfterTick(old(Model()))
    {
      TickKeepsInv(Model());
      now := now + 1;
    }

    method Teardown()
      requires Valid()
      modifies this
      ensures Valid()
      ensures Model() == AfterTeardown(old(Model()))
      ensures timers == map[] && pending == map[]
    {
      TeardownKeepsInv(Model());
      TeardownCancelsEveryTimer(Model());
      mounted := false;
      // timeoutsRef.current.forEach(clearTimeout)
      var rest := timers.Keys;
      while rest != {}
        invariant rest <= timers.Keys && timers == old(timers)
        invariant typing == old(typing) && log == old(log) && bound == old(bound) && !mounted
        invariant now == old(now) && nextHandle == old(nextHandle)
        invariant pending.Keys <= old(pending).Keys
        invariant forall h :: h in pending ==> pending[h] == old(pending)[h]
        invariant forall h :: h in old(pending) ==>
          (h in pending <==> forall u :: u in timers && u !in rest ==> timers[u] != h)
        decreases rest
      {
        var u :| u in rest;
        pending := pending - {timers[u]};
        rest := rest - {u};
      }
      forall h | h in old(pending) ensures h !in pending {
        var u := old(pending)[h].user;
        assert u in timers && timers[u] == h;
      }
      assert pending == map[];
      timers := map[];
      if bound {
        log := log + ReleaseCalls(names.chat);
        bound := false;
      }
    }
  }
}
