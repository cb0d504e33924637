/** The typing-notification route, app/api/chat/typing/route.ts: two field
    checks in a fixed order, then one publish of the typing event. The rate
    limiter, `Security.sanitizeInput` and the broker are parameters:
    `limit(key, max, windowMs)` is false when the check throws,
    `sanitize(nickname)` is `None` when the sanitizer throws, and
    `trigger(channel, event, payload)` is false when the publish throws. */
module TypingNotify {
  import opened Wrappers
  import opened Channel
  import opened Http
  import ChannelAuth

  const RATE_LIMIT: nat := 30
  const RATE_WINDOW_MS: nat := 60 * 1000

  const FAILED := Response(500, ErrorBody("Failed to send typing notification"))

  /** The limiter key, `chat-typing:<ip>` (line 12). */
  function RateKey(req: Request): (key: string)
    ensures Truthy(req.ip) ==> key == "chat-typing:" + req.ip.value
    ensures !Truthy(req.ip) ==> key == "chat-typing:unknown"
  {
    "chat-typing:" + ClientIp(req)
  }

  /** The two routes count against separate limiter buckets, whatever the
      client addresses. */
  lemma RateKeysDistinct(typingReq: Request, authReq: Request)
    ensures RateKey(typingReq) != ChannelAuth.RateKey(authReq)
  {
    assert RateKey(typingReq)[0] == 'c' != 'p' == ChannelAuth.RateKey(authReq)[0];
  }

  function RateCall(req: Request): ServerCall
  {
    RateCheck(RateKey(req), RATE_LIMIT, RATE_WINDOW_MS)
  }

  /** Both fields are present and non-empty. */
  predicate WellFormed(form: Form)
  {
    Truthy(Param(form, "nickname")) && Truthy(Param(form, "user_data"))
  }

  /** The one publish a well-formed form asks for (lines 34-41), or `None`
      when sanitizing the nickname throws. */
  function PublishFor(form: Form, sanitize: string -> Option<string>, names: ChatNames): (call: Option<ServerCall>)
    requires WellFormed(form)
    ensures call.Some? <==> sanitize(form["nickname"]).Some?
    ensures call.Some? ==>
      && call.value.Trigger? && call.value.channel == names.chat && call.value.event == names.typingEvent
      && call.value.payload.user == sanitize(form["nickname"]).value
  {
    match sanitize(form["nickname"])
    case None => None
    case Some(user) => Some(Trigger(names.chat, names.typingEvent, TypingPayload(user)))
  }

  /** `POST` (lines 8-51). */
  function Notify(req: Request, limit: (string, nat, nat) -> bool, sanitize: string -> Option<string>,
                  trigger: (string, string, TypingPayload) -> bool, names: ChatNames): (h: Handled)
    // the rate check comes first, before the body is read; the publish
    // happens once, exactly when the limiter passes, both fields are there
    // and the sanitizer returns
    ensures h.calls ==
      [RateCall(req)]
      + (if limit(RateKey(req), RATE_LIMIT, RATE_WINDOW_MS) && req.form.Some? && WellFormed(req.form.value)
            && PublishFor(req.form.value, sanitize, names).Some?
         then [PublishFor(req.form.value, sanitize, names).value] else [])
    ensures h.response.status in {200, 400, 500}
    ensures h.response.status == 400 <==>
      limit(RateKey(req), RATE_LIMIT, RATE_WINDOW_MS) && req.form.Some? && !WellFormed(req.form.value)
    ensures h.response.status == 200 <==>
      |h.calls| == 2 && trigger(h.calls[1].channel, h.calls[1].event, h.calls[1].payload)
    ensures h.response.status == 200 ==> h.response.body == SuccessBody
    ensures h.response.status == 500 ==> h.response == FAILED
  {
    var rate := RateCall(req);
    if !limit(rate.key, rate.limit, rate.windowMs) then Handled(FAILED, [rate])
    else if req.form.None? then Handled(FAILED, [rate])
    else
      var form := req.form.value;
      if !Truthy(Param(form, "nickname")) then
        Handled(Response(400, ErrorBody("Nickname is required")), [rate])
      else if !Truthy(Param(form, "user_data")) then
        Handled(Response(400, ErrorBody("User data is required")), [rate])
      else
        match PublishFor(form, sanitize, names)
        case None => Handled(FAILED, [rate])
        case Some(publish) =>
          if trigger(publish.channel, publish.event, publish.payload) then
            Handled(Response(200, SuccessBody), [rate, publish])
          else
            Handled(FAILED, [rate, publish])
  }

  // ---------------------------------------------------------------------
  // The route's cases, one by one.

  /** The nickname is checked first: without it the answer names the
      nickname, whatever `user_data` holds, and nothing is published. */
  lemma NicknameRequired(req: Request, limit: (string, nat, nat) -> bool, sanitize: string -> Option<string>,
                         trigger: (string, string, TypingPayload) -> bool, names: ChatNames)
    requires limit(RateKey(req), RATE_LIMIT, RATE_WINDOW_MS) && req.form.Some?
    requires !Truthy(Param(req.form.value, "nickname"))
    ensures Notify(req, limit, sanitize, trigger, names) ==
      Handled(Response(400, ErrorBody("Nickname is required")), [RateCall(req)])
  {
  }

  lemma UserDataRequired(req: Request, limit: (string, nat, nat) -> bool, sanitize: string -> Option<string>,
                         trigger: (string, string, TypingPayload) -> bool, names: ChatNames)
    requires limit(RateKey(req), RATE_LIMIT, RATE_WINDOW_MS) && req.form.Some?
    requires Truthy(Param(req.form.value, "nickname")) && !Truthy(Param(req.form.value, "user_data"))
    ensures Notify(req, limit, sanitize, trigger, names) ==
      Handled(Response(400, ErrorBody("User data is required")), [RateCall(req)])
  {
  }

  /** Both fields present and the sanitizer returns: exactly one publish,
      on the chat channel with the typing event and the sanitized nickname;
      `{success: true}` unless the publish throws. */
  lemma PublishesOnce(req: Request, limit: (string, nat, nat) -> bool, sanitize: string -> Option<string>,
                      trigger: (string, string, TypingPayload) -> bool, names: ChatNames)
    requires limit(RateKey(req), RATE_LIMIT, RATE_WINDOW_MS) && req.form.Some? && WellFormed(req.form.value)
    requires sanitize(req.form.value["nickname"]).Some?
    ensures var payload := TypingPayload(sanitize(req.form.value["nickname"]).value);
      var h := Notify(req, limit, sanitize, trigger, names);
      && h.calls == [RateCall(req), Trigger(names.chat, names.typingEvent, payload)]
      && h.response == if trigger(names.chat, names.typingEvent, payload) then Response(200, SuccessBody) else FAILED
  {
  }

  /** A throw in the sanitizer is a 500 with nothing published. */
  lemma SanitizeThrowFails(req: Request, limit: (string, nat, nat) -> bool, sanitize: string -> Option<string>,
                           trigger: (string, string, TypingPayload) -> bool, names: ChatNames)
    requires limit(RateKey(req), RATE_LIMIT, RATE_WINDOW_MS) && req.form.Some? && WellFormed(req.form.value)
    requires sanitize(req.form.value["nickname"]).None?
    ensures Notify(req, limit, sanitize, trigger, names) == Handled(FAILED, [RateCall(req)])
  {
  }

  /** A throw in the rate check or in reading the body is a 500, and the
      form is never looked at. */
  lemma ThrowBeforeChecksFails(req: Request, limit: (string, nat, nat) -> bool, sanitize: string -> Option<string>,
                               trigger: (string, string, TypingPayload) -> bool, names: ChatNames)
    requires !limit(RateKey(req), RATE_LIMIT, RATE_WINDOW_MS) || req.form.None?
    ensures Notify(req, limit, sanitize, trigger, names) == Handled(FAILED, [RateCall(req)])
  {
  }
}
