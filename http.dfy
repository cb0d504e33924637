/** What the two route handlers see and do: the request (client address and
    url-encoded form), the JSON response, and the calls they make on the
    rate limiter and the broker's server client, in order. */
module Http {
  import opened Wrappers
  import opened PusherTypes

  /** The parsed form body, one value per name (`URLSearchParams.get`). */
  type Form = map<string, string>

  /** A POST request: `req.ip` and the body, `None` when reading the body
      (`req.text()`) throws. */
  datatype Request = Request(ip: Option<string>, form: Option<Form>)

  /** `params.get(name)`: the value, or null when the field is missing. */
  function Param(form: Form, name: string): (v: Option<string>)
    ensures v.Some? <==> name in form
    ensures v.Some? ==> v.value == form[name]
  {
    if name in form then Some(form[name]) else None
  }

  /** `req.ip || 'unknown'`. */
  function ClientIp(req: Request): (ip: string)
    ensures ip != ""
    ensures Truthy(req.ip) ==> ip == req.ip.value
    ensures !Truthy(req.ip) ==> ip == "unknown"
  {
    if Truthy(req.ip) then req.ip.value else "unknown"
  }

  datatype Body =
    | ErrorBody(error: string)      // `{ error }`
    | SuccessBody                   // `{ success: true }`
    | AuthBody(auth: AuthResponse)  // the broker's authorization, as is

  /** `NextResponse.json(body, { status })`; the status defaults to 200. */
  datatype Response = Response(status: nat, body: Body)

  /** The presence data sent with a presence-channel authorization. */
  datatype PresenceData = PresenceData(userId: string, userInfo: MemberInfo)

  /** The payload of a published typing event. */
  datatype TypingPayload = TypingPayload(user: string)

  /** A call a route makes on a service outside it. */
  datatype ServerCall =
    | RateCheck(key: string, limit: nat, windowMs: nat)                       // `RateLimiter.check`
    | Authorize(socketId: string, channel: string, presence: Option<PresenceData>)  // `pusherServer.authorizeChannel`
    | Trigger(channel: string, event: string, payload: TypingPayload)        // `pusherServer.trigger`

  /** A route's response and the calls it made on the way, in order. A
      call that throws is in `calls`: it was made, and the route's `catch`
      answered. (A hook's broker log, `Channel.Completed`, holds only the
      calls that returned.) */
  datatype Handled = Handled(response: Response, calls: seq<ServerCall>)

  /** `s.startsWith(prefix)`. */
  predicate HasPrefix(s: string, prefix: string)
    ensures HasPrefix(s, prefix) <==> prefix <= s
  {
    |prefix| <= |s| && s[..|prefix|] == prefix
  }
}
