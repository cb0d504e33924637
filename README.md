# Typing and presence trackers, and their two routes, in Dafny

This project models the real-time core of a chat front end built on a hosted
publish/subscribe broker (Pusher):

- the **typing-indicator tracker** (`hooks/use-typing-indicator.ts`). It holds
  the set of remote users shown as typing and one expiry timer per user. It
  ignores its own user's events and restarts a user's timer on every typing
  event, so timers extend and never stack. A user leaves the set when their
  timer runs out or when the member leaves. On teardown it cancels every
  timer and releases the channel, unbinding before unsubscribing;
- the **presence tracker** (`hooks/use-presence-channel.ts`). It holds the
  channel's members keyed by id, plus a subscribed flag and the last error.
  A snapshot replaces the members, a join inserts or overwrites, and a leave
  deletes;
- the **channel-authorization route** (`app/api/pusher/auth/route.ts`). It
  checks the three form fields, tells presence channels from private ones by
  name prefix, and calls the broker's `authorizeChannel` at most once;
- the **typing-notification route** (`app/api/chat/typing/route.ts`). It
  checks the two form fields in a fixed order and publishes at most one
  typing event, carrying `{user: sanitize(nickname)}`.

Both hooks are classes whose fields the handlers change in place. The typing
tracker's fields mirror a value `TypingState`, and each method is proved to
move `Model()` exactly as a pure transition function says (`AfterTyping`,
`AfterExpiry`, ...). The invariant and the timing results are proved about
those functions: over single steps and over whole runs of events in any
order. The JavaScript runtime's timer queue is part of the state
(`pending`: handle to the callback's user and deadline), with a logical
millisecond clock. A cancelled timer leaves the queue, so it never runs. The
runtime runs only queued callbacks that are due, and it runs a due callback
before the clock moves past its deadline. The presence tracker's methods
assign the results of the pure map updates `WithMember`, `WithoutMember` and
`Hydrate`. The routes are pure functions from the request and the outcomes
of the external services to a response plus the ordered list of external
calls made. That list is what "no authorize call" and "exactly one publish"
are stated over. A call that throws is in a route's list, because it was
made; a hook's broker log holds only the calls that returned.

External services are parameters:
- a call on the broker client that may throw is a `CallOutcome`: either all
  calls return, or the call at a given index throws;
- `RateLimiter.check` is `limit`, false when it throws;
- `authorizeChannel` is `authorize`, `None` when it throws;
- `pusherServer.trigger` is `trigger`, false when it throws;
- `Security.sanitizeInput` is `sanitize`, `None` when it throws;
- `new Date().toISOString()` is `joinedAt`;
- reading the body is `Request.form`, `None` when `req.text()` throws.

`lib/pusher/constants.ts` is not part of this model, so the chat channel
name and the typing event name are a `ChatNames` parameter.

Three behaviours of the code that the model keeps as written:
- the visible typing set equals the set of users with a live timer only
  while the hook is mounted. Teardown cancels the timers but does not empty
  the set (`RunKeepsInv`, `UnmountedStaysQuiet`);
- a throwing rate check ends inside the route's `try`, so it is answered
  with the generic 500 of that route;
- in `subscribe` of the presence hook, a throw after `pusherClient.subscribe`
  has returned leaves no cleanup, so that subscription is never released.
  This is modelled as written (`ThrowAfterSubscribeLeavesSubscription`).

## Model

| member | source | states |
|---|---|---|
| Wrappers.Truthy | app/api/pusher/auth/route.ts:20 | JavaScript truthiness of a string that may be null: false exactly for null and for the empty string |
| Channel.Completed | hooks/use-typing-indicator.ts:82-116 | for an outcome whose throw comes from one of the planned calls, the calls that returned are a prefix of the planned ones: all of them, or exactly those before the call that throws, which is not among them |
| Channel.ReleaseCalls | hooks/use-presence-channel.ts:65-66 | a cleanup makes two calls, unbind-all first and unsubscribe of the channel last, and no other call |
| TypingIndicator.SubscribeCalls | hooks/use-typing-indicator.ts:84-112 | six calls: set-user-data with the nickname, subscribe to the chat channel, then binds, and the events bound are exactly the typing event, subscription succeeded, subscription error and member removed |
| TypingIndicator.Initial | hooks/use-typing-indicator.ts:73-121 | the first state is mounted, shows nobody and holds no timer. With an empty nickname no broker call is made and no channel is held. Otherwise the calls are, in order, a prefix of set-user-data, subscribe and the four binds, and a channel is held exactly when subscribe returned. The invariant holds |
| TypingIndicator.AfterClear | hooks/use-typing-indicator.ts:18-24 | the user's handle is gone and its queued callback cancelled. Other users' handles are untouched. With no handle it is a no-op |
| TypingIndicator.AfterTyping | hooks/use-typing-indicator.ts:26-48 | unmounted, or an event for the local nickname: nothing changes. Otherwise the user is added to the set, any old callback is cancelled, and one fresh handle is queued, due `TYPING_TIMEOUT` ms from now. Other users' handles are untouched |
| TypingIndicator.AfterExpiry | hooks/use-typing-indicator.ts:37-45 | the run callback leaves the queue. While mounted, its user leaves both the set and the handle map. Unmounted, nothing else changes |
| TypingIndicator.AfterMemberRemoved | hooks/use-typing-indicator.ts:103-112 | a non-empty `info.nickname` leaves the set and has its timer cancelled. An absent or empty one changes nothing |
| TypingIndicator.AfterTeardown | hooks/use-typing-indicator.ts:123-136 | unmounted, no handle left, exactly the callbacks named by a handle cancelled and the rest kept as they were, channel dropped. The broker sees unbind-all then unsubscribe exactly when a channel was held. The typing set stays as it was |
| TypingIndicator.AfterTick | hooks/use-typing-indicator.ts:37-45 | the clock moves on by one ms only when no queued callback is due; nothing else changes |
| TypingIndicator.InitialKeepsInv | hooks/use-typing-indicator.ts:13-16 | the invariant holds in the first state |
| TypingIndicator.TypingKeepsInv | hooks/use-typing-indicator.ts:26-48 | a typing event keeps the invariant: set = handle keys while mounted, own nickname never shown, handles and queued callbacks in one-to-one match, deadlines within `TYPING_TIMEOUT` |
| TypingIndicator.ExpiryKeepsInv | hooks/use-typing-indicator.ts:37-45 | running a queued callback keeps the invariant |
| TypingIndicator.MemberRemovedKeepsInv | hooks/use-typing-indicator.ts:103-112 | a member-removed event keeps the invariant |
| TypingIndicator.TickKeepsInv | hooks/use-typing-indicator.ts:10 | time passing with nothing due keeps the invariant, deadlines included |
| TypingIndicator.TeardownKeepsInv | hooks/use-typing-indicator.ts:123-136 | teardown keeps the invariant |
| TypingIndicator.TeardownCancelsEveryTimer | hooks/use-typing-indicator.ts:126-128 | after teardown no handle and no queued callback is left: no timer leaks |
| TypingIndicator.AtMostOneTimerPerUser | hooks/use-typing-indicator.ts:35-47 | under the invariant, two queued callbacks for the same user are the same callback |
| TypingIndicator.TypingRestartsTimer | hooks/use-typing-indicator.ts:35-47 | after a typing event the user is shown. Its only queued callback is the new one, due a full timeout from now. The previous one is no longer queued |
| TypingIndicator.ClearLeavesOthers | hooks/use-typing-indicator.ts:18-24 | cancelling one user's timer leaves every other user's handle as it was |
| TypingIndicator.MemberRemovedCancelsTimer | hooks/use-typing-indicator.ts:103-112 | a leaving member is no longer shown and no callback for it stays queued, even before its timer ran |
| TypingIndicator.Step | hooks/use-typing-indicator.ts:26-136 | the hook's reaction to one event; an event the runtime cannot deliver changes nothing |
| TypingIndicator.StepKeepsInv | hooks/use-typing-indicator.ts:26-136 | every event keeps the invariant, never moves the clock back and never changes the local nickname |
| TypingIndicator.RunKeepsInv | hooks/use-typing-indicator.ts:26-136 | after any run of events the invariant holds |
| TypingIndicator.StepKeepsDueBy | hooks/use-typing-indicator.ts:37-47 | an event other than a new typing event from the user never pushes that user's deadline later |
| TypingIndicator.RunKeepsDueBy | hooks/use-typing-indicator.ts:37-47 | the same over a whole run without typing events from the user |
| TypingIndicator.ExpiresAfterTimeout | hooks/use-typing-indicator.ts:29-47 | once more than `TYPING_TIMEOUT` ms pass after a typing event with no further typing event from that user, the user has no timer and, while mounted, is not shown, whatever else happens |
| TypingIndicator.StepKeepsShownUntil | hooks/use-typing-indicator.ts:37-47 | an event other than unmount or that member leaving keeps the user shown until its deadline |
| TypingIndicator.RunKeepsShownUntil | hooks/use-typing-indicator.ts:37-47 | the same over a whole run |
| TypingIndicator.ShownForTimeout | hooks/use-typing-indicator.ts:29-47 | no premature removal: unless the member leaves or the hook unmounts, the user stays shown for the whole timeout after a typing event |
| TypingIndicator.UnmountedStaysQuiet | hooks/use-typing-indicator.ts:27 | after unmount no event shows a new user or queues a timer |
| TypingIndicator.TypingTracker.constructor | hooks/use-typing-indicator.ts:13-16 | the fields hold `Initial(...)`, and the invariant holds |
| TypingIndicator.TypingTracker.SubscribeToChannel | hooks/use-typing-indicator.ts:82-116 | the calls up to the first throw are made in order; the channel is held once subscribe has returned; nothing else changes |
| TypingIndicator.TypingTracker.ClearTypingTimeout | hooks/use-typing-indicator.ts:18-24 | the new state is `AfterClear` of the old |
| TypingIndicator.TypingTracker.HandleTyping | hooks/use-typing-indicator.ts:26-48 | the new state is `AfterTyping` of the old; the invariant is kept |
| TypingIndicator.TypingTracker.Expire | hooks/use-typing-indicator.ts:37-45 | for a queued, due handle the new state is `AfterExpiry` of the old; the invariant is kept |
| TypingIndicator.TypingTracker.HandleMemberRemoved | hooks/use-typing-indicator.ts:103-112 | the new state is `AfterMemberRemoved` of the old; the invariant is kept |
| TypingIndicator.TypingTracker.Tick | hooks/use-typing-indicator.ts:10 | with nothing due the new state is `AfterTick` of the old |
| TypingIndicator.TypingTracker.Teardown | hooks/use-typing-indicator.ts:123-136 | cancels every handle one by one (`forEach(clearTimeout)`). The new state is `AfterTeardown` of the old, with no handle and no queued callback left |
| PresenceChannel.Hydrate | hooks/use-presence-channel.ts:26 | the snapshot's entries, or an empty map when `members` is absent |
| PresenceChannel.WithMember | hooks/use-presence-channel.ts:37 | the member is stored under its id, overwriting any entry; every other entry is unchanged |
| PresenceChannel.WithoutMember | hooks/use-presence-channel.ts:41-46 | the member's id is gone; every other entry is unchanged |
| PresenceChannel.RemoveAbsentIsNoop | hooks/use-presence-channel.ts:41-46 | removing an absent id changes nothing |
| PresenceChannel.LeaveUndoesJoin | hooks/use-presence-channel.ts:36-46 | a join of a new id followed by its leave gives back the original map |
| PresenceChannel.JoinOverwrites | hooks/use-presence-channel.ts:37 | of two joins with one id, the later wins |
| PresenceChannel.JoinsCommute | hooks/use-presence-channel.ts:37 | joins of different ids commute |
| PresenceChannel.UpdatesKeepKeyedById | hooks/use-presence-channel.ts:36-46 | joins and leaves keep every entry stored under its own member id |
| PresenceChannel.SnapshotJoinLeaveExample | hooks/use-presence-channel.ts:25-46 | snapshot {a, b}, join c, leave a gives exactly {b, c} |
| PresenceChannel.LastEventFor | hooks/use-presence-channel.ts:36-46 | the latest event found for an id is about that id |
| PresenceChannel.ReplayFollowsLatestEvent | hooks/use-presence-channel.ts:36-46 | after any run of joins and leaves, an id is present exactly when its latest event is a join, and then holds that join's member. With no event about it, it is as it was before |
| PresenceChannel.ReplayKeepsKeyedById | hooks/use-presence-channel.ts:36-46 | a map keyed by member id stays so under any run |
| PresenceChannel.SubscribeCalls | hooks/use-presence-channel.ts:55-62 | six calls: set-user-data, subscribe to the channel, then binds, and the events bound are exactly subscription succeeded, subscription error, member added and member removed |
| PresenceChannel.CaughtError | hooks/use-presence-channel.ts:68-71 | the `catch` records a thrown `Error` itself, and anything else as `Error('Failed to subscribe')` |
| PresenceChannel.PresenceTracker.constructor | hooks/use-presence-channel.ts:21-23 | no members, not subscribed, no error, no calls |
| PresenceChannel.PresenceTracker.HandleSubscriptionSuccess | hooks/use-presence-channel.ts:25-29 | the members become `Hydrate(snapshot)`, subscribed is true and the error is cleared |
| PresenceChannel.PresenceTracker.HandleSubscriptionError | hooks/use-presence-channel.ts:31-34 | the error is recorded and subscribed is false; the members are left as they were |
| PresenceChannel.PresenceTracker.HandleMemberAdded | hooks/use-presence-channel.ts:36-39 | the members become `WithMember(old, member)`; the join callback runs when one was given |
| PresenceChannel.PresenceTracker.HandleMemberRemoved | hooks/use-presence-channel.ts:41-48 | the members become `WithoutMember(old, member)`; the leave callback runs when one was given |
| PresenceChannel.PresenceTracker.Subscribe | hooks/use-presence-channel.ts:50-72 | falsy `userData`: nothing happens and no cleanup is returned. Otherwise the calls up to the first throw are made in order. A cleanup is returned exactly when nothing threw. The throw of a `ThrowsAt` outcome must come from one of the six calls, since nothing else in the `try` can throw. A throw records the caught error and sets subscribed to false. The members never change |
| PresenceChannel.PresenceTracker.Cleanup | hooks/use-presence-channel.ts:64-67 | unbind-all, then unsubscribe of the channel; nothing else changes |
| PresenceChannel.SnapshotJoinLeaveOnTracker | hooks/use-presence-channel.ts:25-67 | the worked example on the tracker's own methods: members exactly {b, c}. The broker sees the subscription calls, then unbind-all before unsubscribe |
| PresenceChannel.ThrowAfterSubscribeLeavesSubscription | hooks/use-presence-channel.ts:53-71 | as written: a throw from one of the four binds, after subscribe has returned, gives no cleanup, and the channel stays subscribed with no unbind or unsubscribe |
| Http.Param | app/api/pusher/auth/route.ts:16-18 | `params.get`: the field's value when the form has the field, and null exactly when it does not |
| Http.ClientIp | app/api/pusher/auth/route.ts:9 | the client address, or `unknown` when it is absent or empty; never empty |
| Http.HasPrefix | app/api/pusher/auth/route.ts:28 | `startsWith` holds exactly when the prefix is a sequence prefix of the name |
| ChannelAuth.RateKey | app/api/pusher/auth/route.ts:9-10 | the limiter key is `pusher-auth:` followed by the client address, or `pusher-auth:unknown` without one |
| ChannelAuth.Decide | app/api/pusher/auth/route.ts:20-62 | a readable form gets an authorize call only with both ids present, for that socket id and channel name; otherwise a 400 with one of the route's three messages. The case lemmas below fix which |
| ChannelAuth.Authorized | app/api/pusher/auth/route.ts:44-50 | the rate check and the authorize call are made; 200 with the broker's answer as the body exactly when authorize returns, and the fixed 500 when it throws |
| ChannelAuth.Authenticate | app/api/pusher/auth/route.ts:6-70 | the rate check is the first call. Authorize follows, once, exactly when the limiter passes, the body is read and the form asks for it. 400 exactly for a readable form that asks for nothing, with the message the checks chose. 200 exactly when authorize answers, with its answer as the body. Every other case is 500 with the fixed message |
| ChannelAuth.MissingIdsRejected | app/api/pusher/auth/route.ts:20-25 | a missing or empty `socket_id` or `channel_name` gives 400 with its message and no authorize call |
| ChannelAuth.PresenceNeedsUserData | app/api/pusher/auth/route.ts:28-34 | a presence channel without `user_data` gives 400 and no authorize call |
| ChannelAuth.PresenceAuthorized | app/api/pusher/auth/route.ts:36-50 | a presence channel with `user_data` calls authorize once, with the socket id as user id and the nickname, and answers with its result, or 500 when it throws |
| ChannelAuth.PrivateAuthorized | app/api/pusher/auth/route.ts:54-57 | a private channel calls authorize once without presence data and answers with its result, or 500 |
| ChannelAuth.OtherChannelRejected | app/api/pusher/auth/route.ts:59-62 | any other channel name gives 400 `Invalid channel type` and no authorize call |
| ChannelAuth.ThrowBeforeChecksFails | app/api/pusher/auth/route.ts:63-69 | a throwing rate check or body read gives 500 `Authentication failed`, after the rate check only |
| TypingNotify.RateKey | app/api/chat/typing/route.ts:11-12 | the limiter key is `chat-typing:` followed by the client address, or `chat-typing:unknown` without one |
| TypingNotify.RateKeysDistinct | app/api/chat/typing/route.ts:12 | the typing route's limiter key never equals the authorization route's, whatever the addresses: the two limits are counted apart |
| TypingNotify.PublishFor | app/api/chat/typing/route.ts:34-41 | a publish exactly when the sanitizer returns: to the chat channel, with the typing event and the sanitized nickname as `user` |
| TypingNotify.Notify | app/api/chat/typing/route.ts:8-51 | the rate check, keyed `chat-typing:<ip>` with 30 per 60000 ms, is the first call, before the body is read. One publish of `{user: sanitize(nickname)}` follows exactly when the limiter passes, both fields are present and the sanitizer returns. 400 exactly for a readable form missing a field. 200 `{success: true}` exactly when the publish succeeds. Every other case is 500 |
| TypingNotify.NicknameRequired | app/api/chat/typing/route.ts:20-25 | a missing or empty nickname gives 400 `Nickname is required`, whatever `user_data` holds, and no publish |
| TypingNotify.UserDataRequired | app/api/chat/typing/route.ts:27-32 | a nickname without `user_data` gives 400 `User data is required` and no publish |
| TypingNotify.PublishesOnce | app/api/chat/typing/route.ts:34-43 | with both fields and a sanitizer that returns, exactly one publish of the sanitized nickname on the chat channel and typing event; `{success: true}` unless it throws, then 500 |
| TypingNotify.SanitizeThrowFails | app/api/chat/typing/route.ts:34 | a throwing sanitizer gives 500 after the rate check only: nothing is published |
| TypingNotify.ThrowBeforeChecksFails | app/api/chat/typing/route.ts:44-50 | a throwing rate check or body read gives 500 and no publish |

## Left out

- `lib/pusher/client.ts`: the lazily created client, its configuration, and
  connect, reconnect and disconnect. `setUserData` appears only as a
  recorded call; its refusal of empty input is not modelled, because the
  hooks already pass only a non-empty value.
- `lib/pusher/types.ts` holds declarations only. Its `PusherMember` and
  `ChannelAuthResponse` shapes are the `Member` and `AuthResponse` datatypes.
- The debounced `sendTypingNotification` (hooks/use-typing-indicator.ts:50-71).
  The debounce utility is not part of this model, and the body is a network
  call whose errors are only logged.
- React mechanics: state batching, `useCallback`/`useEffect` re-runs and
  rendering. The typing hook's life is one mount and one teardown. A re-run
  of its effect would keep typing entries whose timers the cleanup
  cancelled; that case is not modelled. The presence hook's `useEffect`
  wiring (hooks/use-presence-channel.ts:74-77) is not modelled. That
  `useEffect` is not imported in the file; the model stops at `subscribe`
  and its cleanup.
- Event delivery: handlers may run at any point in a run. The model does not
  tie an inbound event to a live binding, so its results cover more
  interleavings than the broker allows.
- Real time. Time is a logical millisecond clock, and a due timer runs
  before the clock moves past its deadline; a late timer is not modelled.
  `joinedAt` is a parameter instead of the wall clock.
- `URLSearchParams` parsing: the form is a map with one value per field
  name. Repeated fields and encoding are not modelled.
- `RateLimiter`, `Security.sanitizeInput`, `pusherServer` and `logger` are
  abstract parameters or are dropped (logging). Of the sanitizer only its
  result or its throw is modelled, not what it strips. The routes ignore the
  rate check's return value, so only its throw is modelled.
- ExpiresAfterTimeout: it states that the user is gone once the timeout has
  passed. It does not state that the removal happens exactly once.
