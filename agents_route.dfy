/** The gateway functions of app/api/agents/route.ts and its `POST` handler.
    Every `fetch` is replaced by its outcome, given as a parameter: a network
    failure, or a response with its status and what `response.json()` makes of
    the body. Each function is then a pure map from that outcome to the record
    the caller receives. */
module AgentsRoute {
  import opened Js
  import opened Patterns

  /** The fields of a parsed response body that the gateway reads. A parsed
      value that is not an object (a number, a string, an array) has none of
      them, so it reads as Body(None, None, None). */
  datatype Body = Body(success: Option<Json>, message: Option<string>, agentId: Option<string>)

  /** What `response.json()` gives: a parse failure (it throws), JSON `null`
      (reading a field of it throws a TypeError), or a body. */
  datatype Payload = Unparseable | NullPayload | Parsed(body: Body)

  datatype Response = Response(status: int, payload: Payload)

  /** The outcome of one `fetch`: it rejects, or it resolves to a response. */
  datatype Fetched = NetworkError | Responded(response: Response)

  /** `response.ok`: a status in the range 200 to 299. */
  predicate Ok(r: Response) {
    200 <= r.status <= 299
  }

  /** The `{success, message}` record of the OTP, PAN and password calls. */
  datatype ApiResult = ApiResult(success: bool, message: string)

  /** The `{success, message, agent_id?}` record of the create call. */
  datatype AgentResult = AgentResult(success: bool, message: string, agentId: Option<string>)

  const OtpSent := "OTP sent to your email successfully"
  const SendOtpFailed := "Failed to send OTP. Please try again."
  const EmailVerified := "Email verified successfully"
  const InvalidOtp := "Invalid OTP. Please try again."
  const VerifyOtpFailed := "Failed to verify OTP. Please try again."
  const AgentCreated := "Agent created successfully!"
  const CreateFailed := "Failed to create agent. Please try again."
  const PasswordUpdated := "Password updated successfully!"
  const PasswordUpdateFailed := "Failed to update password. Please try again."

  // ---------------------------------------------------------------------------
  // sendEmailOTP

  datatype UserData = UserData(name: string, userId: string)

  datatype SendOtpRequest = SendOtpRequest(
    notificationChannel: string,
    notificationTemplateId: string,
    userData: UserData,
    recipients: seq<string>,
    verificationType: string)

  /** The request body of `sendEmailOTP`; `userId` stands for `Date.now().toString()`. */
  function SendOtpRequestFor(email: string, userName: string, userId: string): (r: SendOtpRequest)
    ensures r.recipients == [email] && |r.recipients| == 1
    ensures r.notificationChannel == "email_notification"
    ensures r.notificationTemplateId == "email_verification"
    ensures r.verificationType == "normal"
    ensures r.userData == UserData(userName, userId)
  {
    SendOtpRequest("email_notification", "email_verification", UserData(userName, userId), [email], "normal")
  }

  /** The `message` of a parsed error body, if it has one. */
  function ErrorMessage(p: Payload): Option<string> {
    if p.Parsed? then p.body.message else None
  }

  /** `sendEmailOTP` once the notification service has answered with `f`. */
  function SendEmailOtp(f: Fetched): (r: ApiResult)
    ensures r.success <==> f.Responded? && Ok(f.response) && !f.response.payload.Unparseable?
    ensures r.success ==> r.message == OtpSent
    ensures f.Responded? && f.response.status == 400 ==> !r.success
    ensures f.Responded? && f.response.status == 400 ==> var m := ErrorMessage(f.response.payload);
              (r.message == "Bad Request" || Some(r.message) == m) && r.message != "" &&
              (m.Some? && m.value != "" ==> Some(r.message) == m)
    ensures !r.success && !(f.Responded? && f.response.status == 400) ==> r.message == SendOtpFailed
  {
    match f
    case NetworkError => ApiResult(false, SendOtpFailed)
    case Responded(response) =>
      if !Ok(response) then
        if response.status == 400 then
          ApiResult(false, if response.payload.Parsed? then StringOr(response.payload.body.message, "Bad Request") else "Bad Request")
        else ApiResult(false, SendOtpFailed)
      else if response.payload.Unparseable? then ApiResult(false, SendOtpFailed)
      else ApiResult(true, OtpSent)
  }

  /** On a successful status the body is parsed but never read: any two
      parseable bodies give the same result. */
  lemma SendEmailOtpIgnoresOkBody(status: int, p: Payload, q: Payload)
    requires 200 <= status <= 299 && !p.Unparseable? && !q.Unparseable?
    ensures SendEmailOtp(Responded(Response(status, p))) == SendEmailOtp(Responded(Response(status, q)))
    ensures SendEmailOtp(Responded(Response(status, p))) == ApiResult(true, OtpSent)
  {
  }

  // ---------------------------------------------------------------------------
  // verifyEmailOTP

  /** `result.success !== false`: only the literal `false` counts as a rejection. */
  predicate NotLiterallyFalse(success: Option<Json>) {
    success != Some(JBool(false))
  }

  /** `verifyEmailOTP` once the notification service has answered with `f`. */
  function VerifyEmailOtp(f: Fetched): (r: ApiResult)
    ensures r.success <==> && f.Responded? && Ok(f.response) && f.response.payload.Parsed?
                           && NotLiterallyFalse(f.response.payload.body.success)
    ensures r.success ==> r.message == EmailVerified
    ensures (f.NetworkError? || !Ok(f.response) || !f.response.payload.Parsed?) ==> r == ApiResult(false, VerifyOtpFailed)
    ensures f.Responded? && Ok(f.response) && f.response.payload.Parsed? && !r.success ==>
              r.message == StringOr(f.response.payload.body.message, InvalidOtp)
  {
    match f
    case NetworkError => ApiResult(false, VerifyOtpFailed)
    case Responded(response) =>
      if !Ok(response) then ApiResult(false, VerifyOtpFailed)
      else
        match response.payload
        case Unparseable => ApiResult(false, VerifyOtpFailed)
        case NullPayload => ApiResult(false, VerifyOtpFailed)
        case Parsed(body) =>
          if NotLiterallyFalse(body.success) then ApiResult(true, EmailVerified)
          else ApiResult(false, StringOr(body.message, InvalidOtp))
  }

  /** The check is permissive: a body with no `success` field, or with any
      value other than `false` in it (`0`, `null`, `"no"`), verifies the email. */
  lemma VerifyEmailOtpPermissive(status: int, s: Option<Json>, m: Option<string>, a: Option<string>)
    requires 200 <= status <= 299
    requires s.None? || s == Some(JNum(0)) || s == Some(JNull) || s == Some(JStr("no"))
    ensures VerifyEmailOtp(Responded(Response(status, Parsed(Body(s, m, a))))).success
  {
  }

  /** A rejection by the service passes its message on, or the fallback when it has none. */
  lemma VerifyEmailOtpRejected(status: int, m: Option<string>, a: Option<string>)
    requires 200 <= status <= 299
    ensures var r := VerifyEmailOtp(Responded(Response(status, Parsed(Body(Some(JBool(false)), m, a)))));
            && !r.success
            && (m.Some? && m.value != "" ==> r.message == m.value)
            && (m.None? || m == Some("") ==> r.message == InvalidOtp)
  {
  }

  // ---------------------------------------------------------------------------
  // verifyPAN

  function VerifyPan(pan: string): (r: ApiResult)
    ensures r.success <==> PanPattern(pan)
    ensures r.message == (if r.success then "PAN verified successfully" else "Invalid PAN format")
  {
    if PanPattern(pan) then ApiResult(true, "PAN verified successfully")
    else ApiResult(false, "Invalid PAN format")
  }

  // ---------------------------------------------------------------------------
  // createAgent and updateAgentPassword

  /** `createAgent` once the onboarding service has answered with `f`. */
  function CreateAgent(f: Fetched): (r: AgentResult)
    ensures r.success <==> f.Responded? && Ok(f.response) && f.response.payload.Parsed?
    ensures r.success ==> var body := f.response.payload.body;
              && r.agentId == body.agentId
              && r.message != ""
              && (r.message == AgentCreated || Some(r.message) == body.message)
              && (body.message.Some? && body.message.value != "" ==> Some(r.message) == body.message)
    ensures !r.success ==> r == AgentResult(false, CreateFailed, None)
  {
    if f.Responded? && Ok(f.response) && f.response.payload.Parsed? then
      var body := f.response.payload.body;
      AgentResult(true, StringOr(body.message, AgentCreated), body.agentId)
    else AgentResult(false, CreateFailed, None)
  }

  /** `updateAgentPassword` once the notification service has answered with `f`. */
  function UpdateAgentPassword(f: Fetched): (r: ApiResult)
    ensures r.success <==> f.Responded? && Ok(f.response) && f.response.payload.Parsed?
    ensures r.success ==> var body := f.response.payload.body;
              && r.message != ""
              && (r.message == PasswordUpdated || Some(r.message) == body.message)
              && (body.message.Some? && body.message.value != "" ==> Some(r.message) == body.message)
    ensures !r.success ==> r == ApiResult(false, PasswordUpdateFailed)
  {
    if f.Responded? && Ok(f.response) && f.response.payload.Parsed? then
      ApiResult(true, StringOr(f.response.payload.body.message, PasswordUpdated))
    else ApiResult(false, PasswordUpdateFailed)
  }

  /** A successful status whose body carries no `agent_id` is still a success. */
  lemma CreateAgentSucceedsWithoutId(status: int, s: Option<Json>, m: Option<string>)
    requires 200 <= status <= 299
    ensures var r := CreateAgent(Responded(Response(status, Parsed(Body(s, m, None)))));
            r.success && r.agentId.None?
  {
  }

  // ---------------------------------------------------------------------------
  // The POST handlers

  /** What `request.json()` gives the handler: a parse failure, `null`, or an
      object with its keys. A parsed value that is not an object has none of
      the keys, so it reads as an object without keys. */
  datatype RequestBody = Malformed | NullBody | Object(fields: map<string, Json>)

  /** `!!body.<key>`: the key is present with a truthy value. */
  predicate Present(fields: map<string, Json>, key: string) {
    key in fields && Truthy(fields[key])
  }

  /** The response a handler sends, with the status of `NextResponse.json`. */
  datatype Reply<T> = Reply(status: int, result: T)

  /** A handler's reply, and the request body it forwarded upstream, if any. */
  datatype Handled<T> = Handled(reply: Reply<T>, forwarded: Option<map<string, Json>>)

  predicate CreateGate(fields: map<string, Json>) {
    Present(fields, "mob_num") && Present(fields, "fname") && Present(fields, "lname") && Present(fields, "email")
  }

  /** `POST /api/agents`: `upstream` is what answers the forwarded create call. */
  function PostAgents(request: RequestBody, upstream: Fetched): (h: Handled<AgentResult>)
    ensures request.Malformed? || request.NullBody? ==>
              h == Handled(Reply(500, AgentResult(false, "Internal server error", None)), None)
    ensures request.Object? && !CreateGate(request.fields) ==>
              h == Handled(Reply(400, AgentResult(false, "Missing required fields", None)), None)
    ensures request.Object? && CreateGate(request.fields) ==>
              && h.forwarded == Some(request.fields)
              && h.reply == Reply(200, CreateAgent(upstream))
  {
    match request
    case Malformed => Handled(Reply(500, AgentResult(false, "Internal server error", None)), None)
    case NullBody => Handled(Reply(500, AgentResult(false, "Internal server error", None)), None)
    case Object(fields) =>
      if !CreateGate(fields) then Handled(Reply(400, AgentResult(false, "Missing required fields", None)), None)
      else Handled(Reply(200, CreateAgent(upstream)), Some(fields))
  }

  /** Nothing is forwarded unless the four required fields are all present,
      and a rejected request gets the same reply whatever the upstream would say. */
  lemma PostAgentsGate(request: RequestBody, u1: Fetched, u2: Fetched)
    ensures PostAgents(request, u1).forwarded.Some? <==> request.Object? && CreateGate(request.fields)
    ensures PostAgents(request, u1).forwarded.None? ==> PostAgents(request, u1) == PostAgents(request, u2)
    ensures PostAgents(request, u1).reply.status in {200, 400, 500}
  {
  }

  /** An empty string, zero, `false` or `null` counts as missing. */
  lemma FalsyFieldIsMissing(fields: map<string, Json>, key: string, v: Json)
    requires key in {"mob_num", "fname", "lname", "email"}
    requires v == JStr("") || v == JNum(0) || v == JBool(false) || v == JNull
    ensures PostAgents(Object(fields[key := v]), NetworkError).reply.status == 400
  {
    assert !Present(fields[key := v], key);
  }
}
