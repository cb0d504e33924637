/** The presence tracker of hooks/use-presence-channel.ts.

    The hook holds the members of one presence channel, keyed by id, a
    subscribed flag and the last error. Each handler computes the new members
    map as a pure function of the old one (below), and the class
    `PresenceTracker` assigns those functions' results to its fields. */
module PresenceChannel {
  import opened Wrappers
  import opened Channel
  import opened PusherTypes

  /** The payload of `pusher:subscription_succeeded`: its `members` object,
      `None` when it is missing or null. */
  datatype Snapshot = Snapshot(members: Option<map<string, Member>>)

  /** A call of the caller's optional `onMemberJoined` / `onMemberLeft`. */
  datatype Notice = JoinedNotice(member: Member) | LeftNotice(member: Member)

  /** `new Map(Object.entries(data.members || {}))` (line 26). */
  function Hydrate(data: Snapshot): (r: map<string, Member>)
    ensures data.members.None? ==> r == map[]
    ensures data.members.Some? ==> r.Keys == data.members.value.Keys
    ensures forall id :: id in r ==> data.members.Some? && r[id] == data.members.value[id]
  {
    match data.members
    case None => map[]
    case Some(entries) => entries
  }

  /** `new Map(prev).set(member.id, member)` (line 37): the member is in,
      under its id, replacing any earlier entry; every other entry stays. */
  function WithMember(members: map<string, Member>, member: Member): (r: map<string, Member>)
    ensures r.Keys == members.Keys + {member.id}
    ensures r[member.id] == member
    ensures forall id :: id in members && id != member.id ==> r[id] == members[id]
  {
    members[member.id := member]
  }

  /** Copy, then `delete(member.id)` (lines 42-46): the id is gone and every
      other entry stays. */
  function WithoutMember(members: map<string, Member>, member: Member): (r: map<string, Member>)
    ensures r.Keys == members.Keys - {member.id}
    ensures forall id :: id in r ==> r[id] == members[id]
  {
    members - {member.id}
  }

  /** Every entry is stored under its member's own id. */
  predicate KeyedById(members: map<string, Member>)
  {
    forall id :: id in members ==> members[id].id == id
  }

  // ---------------------------------------------------------------------
  // How the three map updates relate.

  /** Removing an id that is not there changes nothing. */
  lemma RemoveAbsentIsNoop(members: map<string, Member>, member: Member)
    requires member.id !in members
    ensures WithoutMember(members, member) == members
  {
  }

  /** A join followed by the leave of the same id undoes the join when the
      id was new. */
  lemma {:induction false} LeaveUndoesJoin(members: map<string, Member>, member: Member)
    requires member.id !in members
    ensures WithoutMember(WithMember(members, member), member) == members
  {
  }

  /** A join overwrites: the later of two joins with one id wins. */
  lemma JoinOverwrites(members: map<string, Member>, first: Member, second: Member)
    requires first.id == second.id
    ensures WithMember(WithMember(members, first), second) == WithMember(members, second)
  {
  }

  /** Joins of different ids commute. */
  lemma JoinsCommute(members: map<string, Member>, a: Member, b: Member)
    requires a.id != b.id
    ensures WithMember(WithMember(members, a), b) == WithMember(WithMember(members, b), a)
  {
  }

  /** Joins and leaves keep every entry under its own id. */
  lemma UpdatesKeepKeyedById(members: map<string, Member>, member: Member)
    requires KeyedById(members)
    ensures KeyedById(WithMember(members, member))
    ensures KeyedById(WithoutMember(members, member))
  {
  }

  /** Snapshot {a, b}, then a joins c, then a leaves: exactly {b, c}. */
  lemma SnapshotJoinLeaveExample(a: Member, b: Member, c: Member)
    requires a.id != b.id && b.id != c.id && a.id != c.id
    ensures var snapshot := Snapshot(Some(map[a.id := a, b.id := b]));
      WithoutMember(WithMember(Hydrate(snapshot), c), a) == map[b.id := b, c.id := c]
  {
  }

  // ---------------------------------------------------------------------
  // A run of joins and leaves after a snapshot.

  datatype MemberEvent = Joined(member: Member) | Left(member: Member)

  function Apply(members: map<string, Member>, e: MemberEvent): map<string, Member>
  {
    match e
    case Joined(m) => WithMember(members, m)
    case Left(m) => WithoutMember(members, m)
  }

  /** The members after `events`, in order, starting from `members`. */
  function Replay(members: map<string, Member>, events: seq<MemberEvent>): map<string, Member>
    decreases |events|
  {
    if events == [] then members
    else Apply(Replay(members, events[..|events| - 1]), events[|events| - 1])
  }

  /** The latest event about `id`, if any. */
  function LastEventFor(events: seq<MemberEvent>, id: string): (r: Option<MemberEvent>)
    ensures r.Some? ==> r.value.member.id == id
    decreases |events|
  {
    if events == [] then None
    else if events[|events| - 1].member.id == id then Some(events[|events| - 1])
    else LastEventFor(events[..|events| - 1], id)
  }

  /** Order matters only per id: an id is present after a run exactly when
      its latest event is a join, holding that join's member, or, with no
      event about it, when it was present before, unchanged. */
  lemma {:induction false} ReplayFollowsLatestEvent(members: map<string, Member>, events: seq<MemberEvent>, id: string)
    ensures match LastEventFor(events, id)
      case None =>
        (id in Replay(members, events) <==> id in members)
        && (id in members ==> Replay(members, events)[id] == members[id])
      case Some(Joined(m)) =>
        id in Replay(members, events) && Replay(members, events)[id] == m
      case Some(Left(_)) =>
        id !in Replay(members, events)
    decreases |events|
  {
    if events != [] {
      ReplayFollowsLatestEvent(members, events[..|events| - 1], id);
    }
  }

  /** A snapshot keyed by id stays so under any run. */
  lemma {:induction false} ReplayKeepsKeyedById(members: map<string, Member>, events: seq<MemberEvent>)
    requires KeyedById(members)
    ensures KeyedById(Replay(members, events))
    decreases |events|
  {
    if events != [] {
      var before := Replay(members, events[..|events| - 1]);
      ReplayKeepsKeyedById(members, events[..|events| - 1]);
      UpdatesKeepKeyedById(before, events[|events| - 1].member);
    }
  }

  // ---------------------------------------------------------------------
  // Subscription.

  /** The calls `subscribe` makes past its guard (lines 55-62). */
  function SubscribeCalls(userData: string, channelName: string): (calls: seq<ChannelOp>)
    ensures |calls| == 6
    ensures calls[0] == SetUserData(userData) && calls[1] == Subscribe(channelName)
    ensures forall i :: 2 <= i < |calls| ==> calls[i].Bind?
    ensures forall e :: Bind(e) in calls <==> e in {SUBSCRIPTION_SUCCEEDED, SUBSCRIPTION_ERROR, MEMBER_ADDED, MEMBER_REMOVED}
  {
    [SetUserData(userData), Subscribe(channelName),
     Bind(SUBSCRIPTION_SUCCEEDED), Bind(SUBSCRIPTION_ERROR), Bind(MEMBER_ADDED), Bind(MEMBER_REMOVED)]
  }

  /** What the `catch` of lines 68-71 records: the thrown `Error` itself, or
      a fresh one for any other thrown value. */
  function CaughtError(thrown: Thrown): (f: Failure)
    ensures thrown.ThrownError? ==> f == thrown.error
    ensures thrown.ThrownValue? ==> f.message == "Failed to subscribe"
  {
    match thrown
    case ThrownError(e) => e
    case ThrownValue => Failure("Failed to subscribe")
  }

  class PresenceTracker {
    const channelName: string
    const userData: Option<string>
    const notifyJoined: bool   // `onMemberJoined` was given
    const notifyLeft: bool     // `onMemberLeft` was given
    var members: map<string, Member>
    var isSubscribed: bool
    var error: Option<Failure>
    var log: seq<ChannelOp>      // broker calls made so far
    var notices: seq<Notice>     // caller callbacks run so far

    /** The hook's initial state (lines 21-23). */
    constructor (channelName: string, userData: Option<string>, notifyJoined: bool, notifyLeft: bool)
      ensures this.channelName == channelName && this.userData == userData
      ensures this.notifyJoined == notifyJoined && this.notifyLeft == notifyLeft
      ensures members == map[] && !isSubscribed && error == None && log == [] && notices == []
    {
      this.channelName := channelName;
      this.userData := userData;
      this.notifyJoined := notifyJoined;
      this.notifyLeft := notifyLeft;
      members := map[];
      isSubscribed := false;
      error := None;
      log := [];
      notices := [];
    }

    /** Replace the members with the snapshot, mark subscribed, clear the error. */
    method HandleSubscriptionSuccess(data: Snapshot)
      modifies this
      ensures members == Hydrate(data) && isSubscribed && error == None
      ensures log == old(log) && notices == old(notices)
    {
      members := Hydrate(data);
      isSubscribed := true;
      error := None;
    }

    /** Record the error and mark not subscribed; the members stay as they were. */
    method HandleSubscriptionError(err: Failure)
      modifies this
      ensures error == Some(err) && !isSubscribed
      ensures members == old(members) && log == old(log) && notices == old(notices)
    {
      error := Some(err);
      isSubscribed := false;
    }

    method HandleMemberAdded(member: Member)
      modifies this
      ensures members == WithMember(old(members), member)
      ensures notices == old(notices) + (if notifyJoined then [JoinedNotice(member)] else [])
      ensures isSubscribed == old(isSubscribed) && error == old(error) && log == old(log)
    {
      members := WithMember(members, member);
      if notifyJoined {
        notices := notices + [JoinedNotice(member)];
      }
    }

    method HandleMemberRemoved(member: Member)
      modifies this
      ensures members == WithoutMember(old(members), member)
      ensures notices == old(notices) + (if notifyLeft then [LeftNotice(member)] else [])
      ensures isSubscribed == old(isSubscribed) && error == old(error) && log == old(log)
    {
      members := WithoutMember(members, member);
      if notifyLeft {
        notices := notices + [LeftNotice(member)];
      }
    }

    /** `subscribe` (lines 50-72). Without truthy `userData` it does nothing
        and returns no cleanup. Otherwise it makes its calls up to the first
        that throws; if none throws it returns the cleanup, and if one does
        it records the error, marks not subscribed and returns none. */
    method Subscribe(outcome: CallOutcome) returns (hasCleanup: bool)
      requires Truthy(userData) ==> Fits(SubscribeCalls(userData.value, channelName), outcome)
      modifies this
      ensures !Truthy(userData) ==>
        !hasCleanup && log == old(log) && error == old(error) && isSubscribed == old(isSubscribed)
      ensures Truthy(userData) ==>
        && log == old(log) + Completed(SubscribeCalls(userData.value, channelName), outcome)
        && hasCleanup == outcome.Completes?
      ensures Truthy(userData) && outcome.ThrowsAt? ==>
        error == Some(CaughtError(outcome.thrown)) && !isSubscribed
      ensures outcome.Completes? ==> error == old(error) && isSubscribed == old(isSubscribed)
      ensures members == old(members) && notices == old(notices)
    {
      if !Truthy(userData) {
        return false;
      }
      log := log + Completed(SubscribeCalls(userData.value, channelName), outcome);
      match outcome
      case Completes =>
        hasCleanup := true;
      case ThrowsAt(_, thrown) =>
        error := Some(CaughtError(thrown));
        isSubscribed := false;
        hasCleanup := false;
    }

    /** The cleanup `subscribe` returns (lines 64-67): unbind every handler,
        then unsubscribe. */
    method Cleanup()
      modifies this
      ensures log == old(log) + ReleaseCalls(channelName)
      ensures members == old(members) && isSubscribed == old(isSubscribed)
      ensures error == old(error) && notices == old(notices)
    {
      log := log + [UnbindAll];
      log := log + [Unsubscribe(channelName)];
    }
  }

  /** The worked example run on the hook's handlers: subscribe, snapshot
      {a, b}, c joins, a leaves, cleanup. The members are exactly {b, c}, and
      the broker saw the subscription's calls and then unbind before
      unsubscribe. */
  method SnapshotJoinLeaveOnTracker(channelName: string, userData: string, a: Member, b: Member, c: Member)
    returns (ids: set<string>, calls: seq<ChannelOp>)
    requires userData != ""
    requires a.id != b.id && b.id != c.id && a.id != c.id
    ensures ids == {b.id, c.id}
    ensures calls == SubscribeCalls(userData, channelName) + [UnbindAll, Unsubscribe(channelName)]
  {
    var tracker := new PresenceTracker(channelName, Some(userData), false, false);
    var hasCleanup := tracker.Subscribe(Completes);
    tracker.HandleSubscriptionSuccess(Snapshot(Some(map[a.id := a, b.id := b])));
    tracker.HandleMemberAdded(c);
    tracker.HandleMemberRemoved(a);
    if hasCleanup {
      tracker.Cleanup();
    }
    ids := tracker.members.Keys;
    calls := tracker.log;
  }

  /** The subscription as written: a throw after `subscribe` returns leaves
      the channel subscribed with no cleanup to release it. */
  method ThrowAfterSubscribeLeavesSubscription(channelName: string, userData: string, step: nat)
    returns (calls: seq<ChannelOp>, hasCleanup: bool)
    requires userData != "" && 2 <= step < 6
    ensures !hasCleanup
    ensures Subscribe(channelName) in calls && Unsubscribe(channelName) !in calls && UnbindAll !in calls
  {
    var tracker := new PresenceTracker(channelName, Some(userData), false, false);
    hasCleanup := tracker.Subscribe(ThrowsAt(step, ThrownValue));
    calls := tracker.log;
    assert calls[1] == Subscribe(channelName);
  }
}
