/**
 * The `delete_user` edge function as a specification: a fail-fast chain of gates
 * (method, configuration, caller, privilege directory, administrator, target id), then a
 * best-effort cascade over three tables and one checked deletion of the auth identity.
 *
 * The platform's answers (caller resolution, staff lookup, each delete) are inputs; a
 * call whose promise rejects is a `...Threw` answer and ends in the catch-all.
 */
module DeleteUser {
  import opened Wrappers
  import opened Store
  import opened Privilege

  /** The three environment values; an unset variable is `None`. */
  datatype Env = Env(url: Option<string>, anonKey: Option<string>, serviceRoleKey: Option<string>)

  /** The request body: JSON that did not parse, or an object whose `user_id` may be absent. */
  datatype Body = Unparsable | Parsed(userId: Option<string>)

  datatype Request = Request(verb: string, body: Body)

  datatype User = User(id: string)

  /** The answer to a read: a value, no value, an error object, or a rejected promise. */
  datatype Lookup<T> = Found(value: T) | Missing | LookupError(message: string) | LookupThrew(detail: string)

  /** The answer to a delete: success, an error object, or a rejected promise. */
  datatype Effect = Done | EffectError(message: string) | EffectThrew(detail: string)

  /** Everything the platform answers during one invocation, in call order. */
  datatype Answers = Answers(
    clientFault: Option<string>,      // constructing the two clients threw
    caller: Lookup<User>,             // auth.getUser() with the caller's bearer token
    callerStaff: Lookup<StaffRow>,    // staff row of the caller, at most one
    perfilDelete: Effect,
    devicesDelete: Effect,
    staffDelete: Effect,
    identityDelete: Effect)           // auth.admin.deleteUser(target)

  /** The platform calls the handler issues, in order. */
  datatype Step =
    | ResolveCaller
    | LookupStaff(callerId: string)
    | DeletePerfil(target: string)
    | DeleteDeviceAuthorizations(target: string)
    | DeleteStaff(target: string)
    | DeleteIdentity(target: string)
  {
    predicate IsDeletion() {
      !ResolveCaller? && !LookupStaff?
    }
  }

  datatype ErrorCode =
    | MethodNotAllowed
    | MissingEnv
    | Unauthorized
    | CallerNotFound
    | Forbidden
    | MissingUserId
    | AuthDeleteFailed
    | Unexpected

  /** The JSON body: `{ok:true}`, `{error}`, or `{ok:false, error, details}`. */
  datatype Payload = Acknowledged | Refused(error: ErrorCode) | Failed(error: ErrorCode, details: string)

  datatype Response = Response(status: int, payload: Payload)

  /** The `error` string each code is sent as. */
  function Wire(code: ErrorCode): string {
    match code
    case MethodNotAllowed => "method_not_allowed"
    case MissingEnv => "missing_env"
    case Unauthorized => "unauthorized"
    case CallerNotFound => "caller_not_found"
    case Forbidden => "forbidden"
    case MissingUserId => "missing_user_id"
    case AuthDeleteFailed => "auth_delete_failed"
    case Unexpected => "unexpected"
  }

  /** The HTTP status each code is sent with. */
  function StatusOf(code: ErrorCode): int {
    match code
    case MethodNotAllowed => 405
    case MissingEnv => 500
    case Unauthorized => 401
    case CallerNotFound => 403
    case Forbidden => 403
    case MissingUserId => 400
    case AuthDeleteFailed => 500
    case Unexpected => 500
  }

  function Refusal(code: ErrorCode): Response {
    Response(StatusOf(code), Refused(code))
  }

  /** The catch-all answer, with the stringified exception as details. */
  function Fault(detail: string): (r: Response)
    ensures r.payload.Failed? && r.payload.error == Unexpected && r.payload.details == detail
    ensures r.status == StatusOf(r.payload.error)
  {
    Response(500, Failed(Unexpected, detail))
  }

  /** `Deno.env.get(v) ?? ""` is truthy. */
  predicate Present(v: Option<string>)
    ensures Present(v) <==> v.Some? && v.value != ""
  {
    v.GetOr("") != ""
  }

  /** All three environment values are set and non-empty. */
  predicate Configured(env: Env)
    ensures Configured(env) <==>
      env.url.Some? && env.url.value != "" &&
      env.anonKey.Some? && env.anonKey.value != "" &&
      env.serviceRoleKey.Some? && env.serviceRoleKey.value != ""
  {
    Present(env.url) && Present(env.anonKey) && Present(env.serviceRoleKey)
  }

  /** `String(body?.user_id ?? "")`, where an unparsable body was replaced by `{}`. */
  function TargetOf(body: Body): (target: string)
    ensures target != "" <==> body.Parsed? && body.userId.Some? && body.userId.value != ""
    ensures target != "" ==> target == body.userId.value
  {
    match body
    case Unparsable => ""
    case Parsed(id) => id.GetOr("")
  }

  /** Where the gate chain stops: a response with the calls made so far, or the go-ahead. */
  datatype Gated = Rejected(response: Response, trace: seq<Step>) | Admitted(callerId: string, target: string)

  /** The gate chain, lines 5-72 of the handler. */
  function Gate(req: Request, env: Env, ans: Answers): (g: Gated)
    ensures g.Rejected? ==> forall s :: s in g.trace ==> !s.IsDeletion()
    ensures g.Admitted? ==> g.target != "" && g.target == TargetOf(req.body)
    ensures g.Admitted? ==> ans.caller.Found? && g.callerId == ans.caller.value.id
  {
    if req.verb != "POST" then Rejected(Refusal(MethodNotAllowed), [])
    else if !Configured(env) then Rejected(Refusal(MissingEnv), [])
    else if ans.clientFault.Some? then Rejected(Fault(ans.clientFault.value), [])
    else match ans.caller
      case LookupThrew(d) => Rejected(Fault(d), [ResolveCaller])
      case Missing => Rejected(Refusal(Unauthorized), [ResolveCaller])
      case LookupError(_) => Rejected(Refusal(Unauthorized), [ResolveCaller])
      case Found(user) =>
        var calls := [ResolveCaller, LookupStaff(user.id)];
        match ans.callerStaff
        case LookupThrew(d) => Rejected(Fault(d), calls)
        case Missing => Rejected(Refusal(CallerNotFound), calls)
        case LookupError(_) => Rejected(Refusal(CallerNotFound), calls)
        case Found(row) =>
          if !IsAdmin(row) then Rejected(Refusal(Forbidden), calls)
          else if TargetOf(req.body) == "" then Rejected(Refusal(MissingUserId), calls)
          else Admitted(user.id, TargetOf(req.body))
  }

  /** The result of one invocation: the response, the platform afterwards, the calls made. */
  datatype Outcome = Outcome(response: Response, after: Snapshot, trace: seq<Step>)

  /** A delete takes effect only when the platform reports success. */
  function Apply(e: Effect, before: Snapshot, after: Snapshot): Snapshot {
    if e.Done? then after else before
  }

  /** The tail, lines 74-89: three best-effort deletes, then the checked identity deletion. */
  function Cascade(t: Snapshot, target: string, ans: Answers): (o: Outcome)
    ensures 1 <= |o.trace| && o.trace[0] == DeletePerfil(target)
    ensures forall s :: s in o.trace ==> s.IsDeletion()
    ensures o.response.status in {500, 200}
    ensures o.after.identities != t.identities ==>
      o.response == Response(200, Acknowledged) && o.after.identities == t.identities - {target}
  {
    var calls1 := [DeletePerfil(target)];
    if ans.perfilDelete.EffectThrew? then Outcome(Fault(ans.perfilDelete.detail), t, calls1)
    else
      var t1 := Apply(ans.perfilDelete, t, t.(perfil := PerfilWithout(t.perfil, target)));
      var calls2 := calls1 + [DeleteDeviceAuthorizations(target)];
      if ans.devicesDelete.EffectThrew? then Outcome(Fault(ans.devicesDelete.detail), t1, calls2)
      else
        var t2 := Apply(ans.devicesDelete, t1,
                        t1.(deviceAuthorizations := DevicesWithout(t1.deviceAuthorizations, target)));
        var calls3 := calls2 + [DeleteStaff(target)];
        if ans.staffDelete.EffectThrew? then Outcome(Fault(ans.staffDelete.detail), t2, calls3)
        else
          var t3 := Apply(ans.staffDelete, t2, t2.(staff := StaffWithout(t2.staff, target)));
          var calls4 := calls3 + [DeleteIdentity(target)];
          match ans.identityDelete
          case Done => Outcome(Response(200, Acknowledged), t3.(identities := t3.identities - {target}), calls4)
          case EffectError(m) => Outcome(Response(500, Failed(AuthDeleteFailed, m)), t3, calls4)
          case EffectThrew(d) => Outcome(Fault(d), t3, calls4)
  }

  /** One invocation of the handler against platform state `t`. */
  function Handle(t: Snapshot, req: Request, env: Env, ans: Answers): (o: Outcome)
    ensures o.response.status in {405, 500, 401, 403, 400, 200}
    ensures o.after != t ==> Gate(req, env, ans).Admitted? && DeletePerfil(Gate(req, env, ans).target) in o.trace
    ensures o.after.identities != t.identities ==> o.response == Response(200, Acknowledged)
  {
    match Gate(req, env, ans)
    case Rejected(response, trace) => Outcome(response, t, trace)
    case Admitted(callerId, target) =>
      var o := Cascade(t, target, ans);
      o.(trace := [ResolveCaller, LookupStaff(callerId)] + o.trace)
  }
}
