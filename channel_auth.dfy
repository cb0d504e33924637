/** The channel-authorization route, app/api/pusher/auth/route.ts: a chain
    of checks over the three form fields that ends in at most one call of the
    broker's `authorizeChannel`. The rate limiter and the broker are
    parameters: `limit(key, max, windowMs)` is false when the check throws,
    and `authorize(socketId, channel, presence)` is `None` when the call
    throws. `joinedAt` is the wall-clock time of the request, as text. */
module ChannelAuth {
  import opened Wrappers
  import opened PusherTypes
  import opened Http

  const PRESENCE_PREFIX := "presence-"
  const PRIVATE_PREFIX := "private-"
  const RATE_LIMIT: nat := 100
  const RATE_WINDOW_MS: nat := 60 * 1000

  const FAILED := Response(500, ErrorBody("Authentication failed"))

  /** The limiter key, `pusher-auth:<ip>` (line 10). */
  function RateKey(req: Request): (key: string)
    ensures Truthy(req.ip) ==> key == "pusher-auth:" + req.ip.value
    ensures !Truthy(req.ip) ==> key == "pusher-auth:unknown"
  {
    "pusher-auth:" + ClientIp(req)
  }

  function RateCall(req: Request): ServerCall
  {
    RateCheck(RateKey(req), RATE_LIMIT, RATE_WINDOW_MS)
  }

  /** What a readable form gets: a 400 with a message, or one authorize call. */
  datatype Decision = Reject(message: string) | Call(call: ServerCall)

  /** The checks of lines 20-62 over the three fields: both ids present,
      then a presence channel with the nickname in `user_data` and the socket
      id as user id, or a private channel with no presence data; any other
      form is rejected. */
  function Decide(form: Form, joinedAt: string): (d: Decision)
    ensures d.Call? ==>
      && d.call.Authorize?
      && Truthy(Param(form, "socket_id")) && d.call.socketId == form["socket_id"]
      && Truthy(Param(form, "channel_name")) && d.call.channel == form["channel_name"]
    ensures d.Reject? ==>
      d.message in {"Missing socket_id or channel_name", "User data required for presence channels", "Invalid channel type"}
  {
    var socketId := Param(form, "socket_id");
    var channelName := Param(form, "channel_name");
    var userData := Param(form, "user_data");
    if !Truthy(socketId) || !Truthy(channelName) then Reject("Missing socket_id or channel_name")
    else if HasPrefix(channelName.value, PRESENCE_PREFIX) then
      if Truthy(userData) then
        Call(Authorize(socketId.value, channelName.value,
                       Some(PresenceData(socketId.value, MemberInfo(userData.value, joinedAt)))))
      else Reject("User data required for presence channels")
    else if HasPrefix(channelName.value, PRIVATE_PREFIX) then
      Call(Authorize(socketId.value, channelName.value, None))
    else Reject("Invalid channel type")
  }

  /** The broker's answer to an authorize call, `None` when it throws. */
  function AuthorizeResult(call: ServerCall, authorize: (string, string, Option<PresenceData>) -> Option<AuthResponse>): Option<AuthResponse>
    requires call.Authorize?
  {
    authorize(call.socketId, call.channel, call.presence)
  }

  /** Make the authorization call (lines 44-50 and 55-56) and answer with its
      result, or 500 when it throws. */
  function Authorized(rate: ServerCall, call: ServerCall,
                      authorize: (string, string, Option<PresenceData>) -> Option<AuthResponse>): (h: Handled)
    requires call.Authorize?
    ensures h.calls == [rate, call]
    ensures h.response.status == 200 <==> AuthorizeResult(call, authorize).Some?
    ensures h.response.status == 200 ==> h.response.body == AuthBody(AuthorizeResult(call, authorize).value)
    ensures h.response.status != 200 ==> h.response == FAILED
  {
    match AuthorizeResult(call, authorize)
    case None => Handled(FAILED, [rate, call])
    case Some(auth) => Handled(Response(200, AuthBody(auth)), [rate, call])
  }

  /** `POST` (lines 6-70). */
  function Authenticate(req: Request, limit: (string, nat, nat) -> bool,
                        authorize: (string, string, Option<PresenceData>) -> Option<AuthResponse>,
                        joinedAt: string): (h: Handled)
    // the rate check comes first; authorize is called at most once, exactly
    // when the limiter passes, the body is read and the form asks for it
    ensures h.calls ==
      [RateCall(req)]
      + (if limit(RateKey(req), RATE_LIMIT, RATE_WINDOW_MS) && req.form.Some?
            && Decide(req.form.value, joinedAt).Call?
         then [Decide(req.form.value, joinedAt).call] else [])
    ensures h.response.status in {200, 400, 500}
    ensures h.response.status == 400 <==>
      limit(RateKey(req), RATE_LIMIT, RATE_WINDOW_MS) && req.form.Some?
      && Decide(req.form.value, joinedAt).Reject?
    ensures h.response.status == 400 ==> h.response.body == ErrorBody(Decide(req.form.value, joinedAt).message)
    ensures h.response.status == 200 <==>
      |h.calls| == 2 && AuthorizeResult(h.calls[1], authorize).Some?
    ensures h.response.status == 200 ==> h.response.body == AuthBody(AuthorizeResult(h.calls[1], authorize).value)
    ensures h.response.status == 500 ==> h.response == FAILED
  {
    var rate := RateCall(req);
    if !limit(rate.key, rate.limit, rate.windowMs) then Handled(FAILED, [rate])
    else if req.form.None? then Handled(FAILED, [rate])
    else
      match Decide(req.form.value, joinedAt)
      case Reject(message) => Handled(Response(400, ErrorBody(message)), [rate])
      case Call(call) => Authorized(rate, call, authorize)
  }

  // ---------------------------------------------------------------------
  // The route's cases, one by one. `limit` passes and the body is read in
  // each unless said otherwise.

  lemma MissingIdsRejected(req: Request, limit: (string, nat, nat) -> bool,
                           authorize: (string, string, Option<PresenceData>) -> Option<AuthResponse>, joinedAt: string)
    requires limit(RateKey(req), RATE_LIMIT, RATE_WINDOW_MS) && req.form.Some?
    requires !Truthy(Param(req.form.value, "socket_id")) || !Truthy(Param(req.form.value, "channel_name"))
    ensures Authenticate(req, limit, authorize, joinedAt) ==
      Handled(Response(400, ErrorBody("Missing socket_id or channel_name")), [RateCall(req)])
  {
  }

  lemma PresenceNeedsUserData(req: Request, limit: (string, nat, nat) -> bool,
                              authorize: (string, string, Option<PresenceData>) -> Option<AuthResponse>, joinedAt: string)
    requires limit(RateKey(req), RATE_LIMIT, RATE_WINDOW_MS) && req.form.Some?
    requires Truthy(Param(req.form.value, "socket_id")) && Truthy(Param(req.form.value, "channel_name"))
    requires HasPrefix(req.form.value["channel_name"], PRESENCE_PREFIX)
    requires !Truthy(Param(req.form.value, "user_data"))
    ensures Authenticate(req, limit, authorize, joinedAt) ==
      Handled(Response(400, ErrorBody("User data required for presence channels")), [RateCall(req)])
  {
  }

  /** A presence channel with a nickname: one authorize call, with the
      socket id as user id and the nickname from `user_data`; its answer is
      the response, or 500 when it throws. */
  lemma PresenceAuthorized(req: Request, limit: (string, nat, nat) -> bool,
                           authorize: (string, string, Option<PresenceData>) -> Option<AuthResponse>, joinedAt: string)
    requires limit(RateKey(req), RATE_LIMIT, RATE_WINDOW_MS) && req.form.Some?
    requires Truthy(Param(req.form.value, "socket_id")) && Truthy(Param(req.form.value, "channel_name"))
    requires HasPrefix(req.form.value["channel_name"], PRESENCE_PREFIX)
    requires Truthy(Param(req.form.value, "user_data"))
    ensures var form := req.form.value;
      var presence := Some(PresenceData(form["socket_id"], MemberInfo(form["user_data"], joinedAt)));
      var h := Authenticate(req, limit, authorize, joinedAt);
      && h.calls == [RateCall(req), Authorize(form["socket_id"], form["channel_name"], presence)]
      && h.response == match authorize(form["socket_id"], form["channel_name"], presence)
           case Some(auth) => Response(200, AuthBody(auth))
           case None => FAILED
  {
  }

  /** A private channel: one authorize call without presence data. */
  lemma PrivateAuthorized(req: Request, limit: (string, nat, nat) -> bool,
                          authorize: (string, string, Option<PresenceData>) -> Option<AuthResponse>, joinedAt: string)
    requires limit(RateKey(req), RATE_LIMIT, RATE_WINDOW_MS) && req.form.Some?
    requires Truthy(Param(req.form.value, "socket_id")) && Truthy(Param(req.form.value, "channel_name"))
    requires HasPrefix(req.form.value["channel_name"], PRIVATE_PREFIX)
    ensures var form := req.form.value;
      var h := Authenticate(req, limit, authorize, joinedAt);
      && h.calls == [RateCall(req), Authorize(form["socket_id"], form["channel_name"], None)]
      && h.response == match authorize(form["socket_id"], form["channel_name"], None)
           case Some(auth) => Response(200, AuthBody(auth))
           case None => FAILED
  {
    assert !HasPrefix(req.form.value["channel_name"], PRESENCE_PREFIX) by {
      assert req.form.value["channel_name"][2] == PRIVATE_PREFIX[2] != PRESENCE_PREFIX[2];
    }
  }

  lemma OtherChannelRejected(req: Request, limit: (string, nat, nat) -> bool,
                             authorize: (string, string, Option<PresenceData>) -> Option<AuthResponse>, joinedAt: string)
    requires limit(RateKey(req), RATE_LIMIT, RATE_WINDOW_MS) && req.form.Some?
    requires Truthy(Param(req.form.value, "socket_id")) && Truthy(Param(req.form.value, "channel_name"))
    requires !HasPrefix(req.form.value["channel_name"], PRESENCE_PREFIX)
    requires !HasPrefix(req.form.value["channel_name"], PRIVATE_PREFIX)
    ensures Authenticate(req, limit, authorize, joinedAt) ==
      Handled(Response(400, ErrorBody("Invalid channel type")), [RateCall(req)])
  {
  }

  /** A throw in the rate check or in reading the body is a 500 with the
      fixed message, before any field is looked at. */
  lemma ThrowBeforeChecksFails(req: Request, limit: (string, nat, nat) -> bool,
                               authorize: (string, string, Option<PresenceData>) -> Option<AuthResponse>, joinedAt: string)
    requires !limit(RateKey(req), RATE_LIMIT, RATE_WINDOW_MS) || req.form.None?
    ensures Authenticate(req, limit, authorize, joinedAt) == Handled(FAILED, [RateCall(req)])
  {
  }
}
