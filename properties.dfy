/**
 * What the `delete_user` handler guarantees, stated over `Handle`: each gate's response
 * and its lack of side effects, exactly which rows the cascade removes, that cascade
 * errors are swallowed, that the identity deletion comes last and alone decides between
 * 200 and `auth_delete_failed`, and what a repeated deletion does.
 */
module Properties {
  import opened Wrappers
  import opened Store
  import opened Privilege
  import opened DeleteUser

  /** A POST with all three environment values set, and client construction did not throw. */
  predicate Ready(req: Request, env: Env, ans: Answers) {
    req.verb == "POST" && Configured(env) && ans.clientFault == None
  }

  // ---------------------------------------------------------------- the gates

  /** Any method but POST: 405 before the environment or the platform is touched. */
  lemma NonPostRejected(t: Snapshot, req: Request, env: Env, ans: Answers)
    requires req.verb != "POST"
    ensures Handle(t, req, env, ans) == Outcome(Response(405, Refused(MethodNotAllowed)), t, [])
  {
  }

  /** A missing or empty environment value: 500 `missing_env`, no platform call. */
  lemma MissingEnvRejected(t: Snapshot, req: Request, env: Env, ans: Answers)
    requires req.verb == "POST"
    requires !Present(env.url) || !Present(env.anonKey) || !Present(env.serviceRoleKey)
    ensures Handle(t, req, env, ans) == Outcome(Response(500, Refused(MissingEnv)), t, [])
  {
  }

  /** Caller resolution that errs or finds no user: 401, nothing deleted. */
  lemma UnresolvedCallerUnauthorized(t: Snapshot, req: Request, env: Env, ans: Answers)
    requires Ready(req, env, ans)
    requires ans.caller.Missing? || ans.caller.LookupError?
    ensures Handle(t, req, env, ans) == Outcome(Response(401, Refused(Unauthorized)), t, [ResolveCaller])
  {
  }

  /** A resolved caller whose staff lookup errs or finds no row: 403 `caller_not_found`. */
  lemma UnknownCallerRejected(t: Snapshot, req: Request, env: Env, ans: Answers, caller: User)
    requires Ready(req, env, ans) && ans.caller == Found(caller)
    requires ans.callerStaff.Missing? || ans.callerStaff.LookupError?
    ensures Handle(t, req, env, ans) ==
      Outcome(Response(403, Refused(CallerNotFound)), t, [ResolveCaller, LookupStaff(caller.id)])
  {
  }

  /**
   * A staff row whose `is_admin` is not the boolean true and whose role does not spell
   * "admin" or "administrador" in any case: 403 `forbidden`, nothing deleted.
   */
  lemma NonAdminForbidden(t: Snapshot, req: Request, env: Env, ans: Answers, caller: User, row: StaffRow)
    requires Ready(req, env, ans) && ans.caller == Found(caller) && ans.callerStaff == Found(row)
    requires row.isAdmin != Some(true)
    requires !SpelledAs(row.role.GetOr(""), "admin") && !SpelledAs(row.role.GetOr(""), "administrador")
    ensures Handle(t, req, env, ans) ==
      Outcome(Response(403, Refused(Forbidden)), t, [ResolveCaller, LookupStaff(caller.id)])
  {
    IsAdminExactly(row);
  }

  /** An administrator whose body is not JSON, or has no or an empty `user_id`: 400. */
  lemma MissingTargetRejected(t: Snapshot, req: Request, env: Env, ans: Answers, caller: User, row: StaffRow)
    requires Ready(req, env, ans) && ans.caller == Found(caller) && ans.callerStaff == Found(row)
    requires IsAdmin(row)
    requires req.body == Unparsable || !Present(req.body.userId)
    ensures Handle(t, req, env, ans) ==
      Outcome(Response(400, Refused(MissingUserId)), t, [ResolveCaller, LookupStaff(caller.id)])
  {
  }

  /** The gates pass exactly for a POST with full configuration, a resolved administrator and a target. */
  lemma AdmittedExactly(req: Request, env: Env, ans: Answers)
    ensures Gate(req, env, ans).Admitted? <==>
      Ready(req, env, ans) && ans.caller.Found? && ans.callerStaff.Found? &&
      IsAdmin(ans.callerStaff.value) &&
      req.body.Parsed? && req.body.userId.Some? && req.body.userId.value != ""
  {
  }

  /** On every path that stops at a gate, no deletion is requested and the platform is unchanged. */
  lemma RejectionHasNoEffect(t: Snapshot, req: Request, env: Env, ans: Answers)
    requires !Gate(req, env, ans).Admitted?
    ensures Handle(t, req, env, ans).after == t
    ensures forall s :: s in Handle(t, req, env, ans).trace ==> !s.IsDeletion()
    ensures Handle(t, req, env, ans).response.status in {405, 500, 401, 403, 400}
  {
  }

  // ---------------------------------------------------------------- the cascade

  /** Past the gates the handler is the cascade for the admitted caller and target. */
  lemma AdmittedRunsCascade(t: Snapshot, req: Request, env: Env, ans: Answers, callerId: string, x: string)
    requires Gate(req, env, ans) == Admitted(callerId, x)
    ensures var o := Cascade(t, x, ans);
      Handle(t, req, env, ans) == o.(trace := [ResolveCaller, LookupStaff(callerId)] + o.trace)
  {
  }

  /** The two gate calls followed by the four cascade calls, as one trace. */
  lemma GateCallsThenCascade<T>(a: T, b: T, c: T, d: T, e: T, f: T)
    ensures [a, b] + [c, d, e, f] == [a, b, c, d, e, f]
  {
  }

  /**
   * A cascade whose table deletes do not throw issues all four deletions for the target
   * in order; each table loses the target's rows when its delete succeeded.
   */
  lemma CascadeCompletes(t: Snapshot, x: string, ans: Answers)
    requires !ans.perfilDelete.EffectThrew? && !ans.devicesDelete.EffectThrew? && !ans.staffDelete.EffectThrew?
    ensures var o := Cascade(t, x, ans);
      o.trace == [DeletePerfil(x), DeleteDeviceAuthorizations(x), DeleteStaff(x), DeleteIdentity(x)] &&
      o.response == (match ans.identityDelete
                     case Done => Response(200, Acknowledged)
                     case EffectError(m) => Response(500, Failed(AuthDeleteFailed, m))
                     case EffectThrew(d) => Response(500, Failed(Unexpected, d))) &&
      o.after.perfil == (if ans.perfilDelete.Done? then PerfilWithout(t.perfil, x) else t.perfil) &&
      o.after.deviceAuthorizations ==
        (if ans.devicesDelete.Done? then DevicesWithout(t.deviceAuthorizations, x) else t.deviceAuthorizations) &&
      o.after.staff == (if ans.staffDelete.Done? then StaffWithout(t.staff, x) else t.staff) &&
      o.after.identities == (if ans.identityDelete.Done? then t.identities - {x} else t.identities)
  {
    match ans.identityDelete {
      case Done =>
      case EffectError(_) =>
      case EffectThrew(_) =>
    }
  }

  /**
   * With all three deletes applied, the tables lose exactly the rows that refer to the
   * target, every other row stays with its multiplicity, and the identity set loses the
   * target exactly when its deletion succeeded.
   */
  lemma CascadeRemovesExactly(t: Snapshot, req: Request, env: Env, ans: Answers, callerId: string, x: string)
    requires Gate(req, env, ans) == Admitted(callerId, x)
    requires ans.perfilDelete == Done && ans.devicesDelete == Done && ans.staffDelete == Done
    ensures var o := Handle(t, req, env, ans);
      (forall r :: multiset(o.after.perfil)[r] == if PerfilMatches(r, x) then 0 else multiset(t.perfil)[r]) &&
      (forall r :: multiset(o.after.deviceAuthorizations)[r] ==
         if DeviceMatches(r, x) then 0 else multiset(t.deviceAuthorizations)[r]) &&
      (forall r :: multiset(o.after.staff)[r] == if StaffMatches(r, x) then 0 else multiset(t.staff)[r]) &&
      NoRowRefersTo(o.after, x) &&
      o.after.identities == if ans.identityDelete.Done? then t.identities - {x} else t.identities
  {
    AdmittedRunsCascade(t, req, env, ans, callerId, x);
    CascadeCompletes(t, x, ans);
    var o := Handle(t, req, env, ans);
    forall r | r in o.after.perfil ensures !PerfilMatches(r, x) {
      assert multiset(o.after.perfil)[r] > 0;
    }
    forall r | r in o.after.deviceAuthorizations ensures !DeviceMatches(r, x) {
      assert multiset(o.after.deviceAuthorizations)[r] > 0;
    }
    forall r | r in o.after.staff ensures !StaffMatches(r, x) {
      assert multiset(o.after.staff)[r] > 0;
    }
  }

  /** A table delete that reports an error leaves its table as it was. */
  lemma FailedDeleteKeepsRows(t: Snapshot, req: Request, env: Env, ans: Answers, callerId: string, x: string)
    requires Gate(req, env, ans) == Admitted(callerId, x)
    requires ans.perfilDelete.EffectError? && ans.devicesDelete.EffectError? && ans.staffDelete.EffectError?
    ensures Handle(t, req, env, ans).after.perfil == t.perfil
    ensures Handle(t, req, env, ans).after.deviceAuthorizations == t.deviceAuthorizations
    ensures Handle(t, req, env, ans).after.staff == t.staff
  {
    AdmittedRunsCascade(t, req, env, ans, callerId, x);
    CascadeCompletes(t, x, ans);
  }

  /** Errors reported by the three table deletes change neither the response nor the calls made. */
  lemma CascadeErrorsIgnored(t: Snapshot, req: Request, env: Env, ans: Answers, e1: Effect, e2: Effect, e3: Effect)
    requires Gate(req, env, ans).Admitted?
    requires !ans.perfilDelete.EffectThrew? && !ans.devicesDelete.EffectThrew? && !ans.staffDelete.EffectThrew?
    requires !e1.EffectThrew? && !e2.EffectThrew? && !e3.EffectThrew?
    ensures var o := Handle(t, req, env, ans);
      var o' := Handle(t, req, env, ans.(perfilDelete := e1, devicesDelete := e2, staffDelete := e3));
      o'.response == o.response && o'.trace == o.trace && o'.after.identities == o.after.identities
  {
    var g := Gate(req, env, ans);
    var ans' := ans.(perfilDelete := e1, devicesDelete := e2, staffDelete := e3);
    assert Gate(req, env, ans') == g;
    AdmittedRunsCascade(t, req, env, ans, g.callerId, g.target);
    AdmittedRunsCascade(t, req, env, ans', g.callerId, g.target);
    CascadeCompletes(t, g.target, ans);
    CascadeCompletes(t, g.target, ans');
  }

  /**
   * Past the gates, and unless a table delete throws, the calls are the three deletes then
   * the identity deletion, all for the target; the identity deletion alone decides the
   * response, and a failure there does not undo the row deletions.
   */
  lemma IdentityDeletionDecides(t: Snapshot, req: Request, env: Env, ans: Answers, callerId: string, x: string)
    requires Gate(req, env, ans) == Admitted(callerId, x)
    requires !ans.perfilDelete.EffectThrew? && !ans.devicesDelete.EffectThrew? && !ans.staffDelete.EffectThrew?
    ensures var o := Handle(t, req, env, ans);
      o.trace == [ResolveCaller, LookupStaff(callerId), DeletePerfil(x), DeleteDeviceAuthorizations(x),
                  DeleteStaff(x), DeleteIdentity(x)] &&
      o.response == (match ans.identityDelete
                     case Done => Response(200, Acknowledged)
                     case EffectError(m) => Response(500, Failed(AuthDeleteFailed, m))
                     case EffectThrew(d) => Response(500, Failed(Unexpected, d))) &&
      o.after.perfil == (if ans.perfilDelete.Done? then PerfilWithout(t.perfil, x) else t.perfil) &&
      o.after.deviceAuthorizations ==
        (if ans.devicesDelete.Done? then DevicesWithout(t.deviceAuthorizations, x) else t.deviceAuthorizations) &&
      o.after.staff == (if ans.staffDelete.Done? then StaffWithout(t.staff, x) else t.staff) &&
      o.after.identities == (if ans.identityDelete.Done? then t.identities - {x} else t.identities)
  {
    AdmittedRunsCascade(t, req, env, ans, callerId, x);
    CascadeCompletes(t, x, ans);
    GateCallsThenCascade(ResolveCaller, LookupStaff(callerId), DeletePerfil(x), DeleteDeviceAuthorizations(x),
                         DeleteStaff(x), DeleteIdentity(x));
  }

  /** A table delete that throws ends in the catch-all, and nothing after it is called. */
  lemma ThrownDeleteStopsCascade(t: Snapshot, req: Request, env: Env, ans: Answers, callerId: string, x: string)
    requires Gate(req, env, ans) == Admitted(callerId, x)
    requires ans.perfilDelete.EffectThrew?
    ensures Handle(t, req, env, ans) ==
      Outcome(Response(500, Failed(Unexpected, ans.perfilDelete.detail)), t,
              [ResolveCaller, LookupStaff(callerId), DeletePerfil(x)])
  {
  }

  /** A deleted auth identity implies a 200 response; 200 implies the identity was deleted. */
  lemma SuccessMeansIdentityRemoved(t: Snapshot, req: Request, env: Env, ans: Answers)
    ensures var o := Handle(t, req, env, ans);
      o.response.status == 200 <==>
        Gate(req, env, ans).Admitted? &&
        !ans.perfilDelete.EffectThrew? && !ans.devicesDelete.EffectThrew? && !ans.staffDelete.EffectThrew? &&
        ans.identityDelete.Done?
    ensures var o := Handle(t, req, env, ans);
      o.response.status == 200 ==> o.after.identities == t.identities - {TargetOf(req.body)}
  {
  }

  /** The catch-all answers only when some platform call or the client construction threw. */
  lemma UnexpectedOnlyFromFaults(t: Snapshot, req: Request, env: Env, ans: Answers)
    requires Handle(t, req, env, ans).response.payload.Failed?
    requires Handle(t, req, env, ans).response.payload.error == Unexpected
    ensures ans.clientFault.Some? || ans.caller.LookupThrew? || ans.callerStaff.LookupThrew? ||
            ans.perfilDelete.EffectThrew? || ans.devicesDelete.EffectThrew? ||
            ans.staffDelete.EffectThrew? || ans.identityDelete.EffectThrew?
  {
  }

  // ---------------------------------------------------------------- repetition

  /**
   * Repeating a deletion whose three table deletes were applied removes no further row:
   * the second run's deletes are no-ops.
   */
  lemma RepeatChangesNoRow(t: Snapshot, req: Request, env: Env, ans1: Answers, ans2: Answers)
    requires Gate(req, env, ans1).Admitted? && Gate(req, env, ans2).Admitted?
    requires ans1.perfilDelete == Done && ans1.devicesDelete == Done && ans1.staffDelete == Done
    requires !ans2.perfilDelete.EffectThrew? && !ans2.devicesDelete.EffectThrew? && !ans2.staffDelete.EffectThrew?
    ensures var first := Handle(t, req, env, ans1).after;
      var second := Handle(first, req, env, ans2).after;
      second.perfil == first.perfil &&
      second.deviceAuthorizations == first.deviceAuthorizations &&
      second.staff == first.staff
  {
    var g1, g2 := Gate(req, env, ans1), Gate(req, env, ans2);
    var x := TargetOf(req.body);
    var first := Handle(t, req, env, ans1).after;
    AdmittedRunsCascade(t, req, env, ans1, g1.callerId, x);
    CascadeCompletes(t, x, ans1);
    AdmittedRunsCascade(first, req, env, ans2, g2.callerId, x);
    CascadeCompletes(first, x, ans2);
    WithoutIdempotent(t.perfil, r => PerfilMatches(r, x));
    WithoutIdempotent(t.deviceAuthorizations, r => DeviceMatches(r, x));
    WithoutIdempotent(t.staff, r => StaffMatches(r, x));
  }

  /**
   * After a successful deletion, a repeat against a platform that only reports success for
   * an identity it holds cannot succeed: it answers 500, with `auth_delete_failed` when the
   * platform reports an error.
   */
  lemma RepeatFailsAtIdentity(t: Snapshot, req: Request, env: Env, ans1: Answers, ans2: Answers)
    requires Handle(t, req, env, ans1).response.status == 200
    requires Gate(req, env, ans2).Admitted?
    requires ans2.identityDelete.Done? ==> TargetOf(req.body) in Handle(t, req, env, ans1).after.identities
    ensures var second := Handle(Handle(t, req, env, ans1).after, req, env, ans2);
      second.response.status == 500 &&
      (!ans2.perfilDelete.EffectThrew? && !ans2.devicesDelete.EffectThrew? && !ans2.staffDelete.EffectThrew? &&
       ans2.identityDelete.EffectError? ==>
         second.response.payload == Failed(AuthDeleteFailed, ans2.identityDelete.message))
  {
    SuccessMeansIdentityRemoved(t, req, env, ans1);
  }

  // ---------------------------------------------------------------- a worked request

  /** An administrator by role "Administrador" deleting "u123" with every call succeeding. */
  lemma AdministradorDeletesU123(t: Snapshot, env: Env, caller: User, isAdmin: Option<bool>)
    requires Configured(env)
    ensures var row := StaffRow(caller.id, isAdmin, Some("Administrador"));
      var ans := Answers(None, Found(caller), Found(row), Done, Done, Done, Done);
      var o := Handle(t, Request("POST", Parsed(Some("u123"))), env, ans);
      o.response == Response(200, Acknowledged) &&
      o.trace == [ResolveCaller, LookupStaff(caller.id), DeletePerfil("u123"),
                  DeleteDeviceAuthorizations("u123"), DeleteStaff("u123"), DeleteIdentity("u123")] &&
      o.after.identities == t.identities - {"u123"}
  {
    var row := StaffRow(caller.id, isAdmin, Some("Administrador"));
    var ans := Answers(None, Found(caller), Found(row), Done, Done, Done, Done);
    var req := Request("POST", Parsed(Some("u123")));
    assert Gate(req, env, ans) == Admitted(caller.id, "u123") by {
      CapitalisedRoleIsAdmin(caller.id, isAdmin);
      assert TargetOf(req.body) == "u123";
    }
    AdmittedRunsCascade(t, req, env, ans, caller.id, "u123");
    CascadeCompletes(t, "u123", ans);
    GateCallsThenCascade(ResolveCaller, LookupStaff(caller.id), DeletePerfil("u123"),
                         DeleteDeviceAuthorizations("u123"), DeleteStaff("u123"), DeleteIdentity("u123"));
  }

  /** The error codes are sent as distinct strings, so a client can tell every outcome apart. */
  lemma WireNamesDistinct(a: ErrorCode, b: ErrorCode)
    requires a != b
    ensures Wire(a) != Wire(b)
  {
  }
}
