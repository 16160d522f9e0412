/** The `POST` handler of app/api/agents/password/route.ts: a presence check on
    three keys, then the reply of `updateAgentPassword` passed on unchanged. */
module PasswordRoute {
  import opened Js
  import opened AgentsRoute

  predicate PasswordGate(fields: map<string, Json>) {
    Present(fields, "email") && Present(fields, "agent_id") && Present(fields, "password")
  }

  const MissingPasswordFields := "Missing required fields: email, agent_id, password"

  /** `POST /api/agents/password`: `upstream` is what answers the forwarded update call. */
  function PostPassword(request: RequestBody, upstream: Fetched): (h: Handled<ApiResult>)
    ensures request.Malformed? || request.NullBody? ==>
              h == Handled(Reply(500, ApiResult(false, "Internal server error")), None)
    ensures request.Object? && !PasswordGate(request.fields) ==>
              h == Handled(Reply(400, ApiResult(false, MissingPasswordFields)), None)
    ensures request.Object? && PasswordGate(request.fields) ==>
              && h.forwarded == Some(request.fields)
              && h.reply == Reply(200, UpdateAgentPassword(upstream))
  {
    match request
    case Malformed => Handled(Reply(500, ApiResult(false, "Internal server error")), None)
    case NullBody => Handled(Reply(500, ApiResult(false, "Internal server error")), None)
    case Object(fields) =>
      if !PasswordGate(fields) then Handled(Reply(400, ApiResult(false, MissingPasswordFields)), None)
      else Handled(Reply(200, UpdateAgentPassword(upstream)), Some(fields))
  }

  /** The update is forwarded exactly when the three keys are present; a
      rejected request gets the same reply whatever the upstream would say. */
  lemma PostPasswordGate(request: RequestBody, u1: Fetched, u2: Fetched)
    ensures PostPassword(request, u1).forwarded.Some? <==> request.Object? && PasswordGate(request.fields)
    ensures PostPassword(request, u1).forwarded.None? ==> PostPassword(request, u1) == PostPassword(request, u2)
  {
  }

  /** With the three keys present, the reply carries what the update call
      returned: success exactly when the service answered with a parseable
      body on a successful status. */
  lemma PostPasswordPassesThrough(fields: map<string, Json>, upstream: Fetched)
    requires PasswordGate(fields)
    ensures var h := PostPassword(Object(fields), upstream);
            && h.reply.status == 200
            && (h.reply.result.success <==> upstream.Responded? && Ok(upstream.response) && upstream.response.payload.Parsed?)
            && (!h.reply.result.success ==> h.reply.result.message == PasswordUpdateFailed)
  {
  }
}
