/**
 * The handler as the program runs it: one pass through the gates with early returns,
 * then in-place deletes on the platform's tables and identity set, in source order.
 */
module Backend {
  import opened Wrappers
  import opened Store
  import opened Privilege
  import opened DeleteUser

  /** The platform's stored state, reached through the privileged client. */
  class Platform {
    var perfil: seq<PerfilRow>
    var deviceAuthorizations: seq<DeviceAuthorization>
    var staff: seq<StaffRow>
    var identities: set<string>

    function State(): Snapshot
      reads this
    {
      Snapshot(perfil, deviceAuthorizations, staff, identities)
    }

    /** `from("perfil").delete().or(id = target, user_id = target)`; applied only on success. */
    method DeletePerfilRows(target: string, e: Effect)
      modifies this`perfil
      ensures perfil == if e.Done? then PerfilWithout(old(perfil), target) else old(perfil)
    {
      if e.Done? {
        perfil := PerfilWithout(perfil, target);
      }
    }

    /** `from("device_authorizations").delete().eq("staff_id", target)`. */
    method DeleteDeviceRows(target: string, e: Effect)
      modifies this`deviceAuthorizations
      ensures deviceAuthorizations ==
        if e.Done? then DevicesWithout(old(deviceAuthorizations), target) else old(deviceAuthorizations)
    {
      if e.Done? {
        deviceAuthorizations := DevicesWithout(deviceAuthorizations, target);
      }
    }

    /** `from("staff").delete().eq("id", target)`. */
    method DeleteStaffRows(target: string, e: Effect)
      modifies this`staff
      ensures staff == if e.Done? then StaffWithout(old(staff), target) else old(staff)
    {
      if e.Done? {
        staff := StaffWithout(staff, target);
      }
    }

    /** `auth.admin.deleteUser(target)`. */
    method DeleteIdentityOf(target: string, e: Effect)
      modifies this`identities
      ensures identities == if e.Done? then old(identities) - {target} else old(identities)
    {
      if e.Done? {
        identities := identities - {target};
      }
    }

    /**
     * The request handler. Returns the response and the platform calls it made; the
     * tables afterwards, the response and the calls are those `Handle` specifies.
     */
    method HandleRequest(req: Request, env: Env, ans: Answers) returns (resp: Response, calls: seq<Step>)
      modifies this
      ensures Outcome(resp, State(), calls) == Handle(old(State()), req, env, ans)
    {
      calls := [];
      if req.verb != "POST" {
        return Refusal(MethodNotAllowed), calls;
      }
      if !Present(env.url) || !Present(env.anonKey) || !Present(env.serviceRoleKey) {
        return Refusal(MissingEnv), calls;
      }
      if ans.clientFault.Some? {
        return Fault(ans.clientFault.value), calls;
      }

      calls := calls + [ResolveCaller];
      if ans.caller.LookupThrew? {
        return Fault(ans.caller.detail), calls;
      }
      if !ans.caller.Found? {
        return Refusal(Unauthorized), calls;
      }
      var callerId := ans.caller.value.id;

      calls := calls + [LookupStaff(callerId)];
      if ans.callerStaff.LookupThrew? {
        return Fault(ans.callerStaff.detail), calls;
      }
      if !ans.callerStaff.Found? {
        return Refusal(CallerNotFound), calls;
      }
      if !IsAdmin(ans.callerStaff.value) {
        return Refusal(Forbidden), calls;
      }

      var target := TargetOf(req.body);
      if target == "" {
        return Refusal(MissingUserId), calls;
      }
      assert Gate(req, env, ans) == Admitted(callerId, target);
      assert calls == [ResolveCaller, LookupStaff(callerId)];
      var cascadeCalls;
      resp, cascadeCalls := RunCascade(target, ans);
      calls := calls + cascadeCalls;
    }

    /**
     * Lines 74-89: the three table deletes, whose errors are ignored, then the identity
     * deletion, whose error is the one reported.
     */
    method RunCascade(target: string, ans: Answers) returns (resp: Response, calls: seq<Step>)
      modifies this
      ensures Outcome(resp, State(), calls) == Cascade(old(State()), target, ans)
    {
      ghost var t := State();
      calls := [DeletePerfil(target)];
      if ans.perfilDelete.EffectThrew? {
        return Fault(ans.perfilDelete.detail), calls;
      }
      DeletePerfilRows(target, ans.perfilDelete);
      ghost var t1 := State();
      assert t1 == Apply(ans.perfilDelete, t, t.(perfil := PerfilWithout(t.perfil, target)));

      calls := calls + [DeleteDeviceAuthorizations(target)];
      if ans.devicesDelete.EffectThrew? {
        return Fault(ans.devicesDelete.detail), calls;
      }
      DeleteDeviceRows(target, ans.devicesDelete);
      ghost var t2 := State();
      assert t2 == Apply(ans.devicesDelete, t1,
                         t1.(deviceAuthorizations := DevicesWithout(t1.deviceAuthorizations, target)));

      calls := calls + [DeleteStaff(target)];
      if ans.staffDelete.EffectThrew? {
        return Fault(ans.staffDelete.detail), calls;
      }
      DeleteStaffRows(target, ans.staffDelete);
      assert State() == Apply(ans.staffDelete, t2, t2.(staff := StaffWithout(t2.staff, target)));

      calls := calls + [DeleteIdentity(target)];
      DeleteIdentityOf(target, ans.identityDelete);
      match ans.identityDelete {
        case Done => resp := Response(200, Acknowledged);
        case EffectError(m) => resp := Response(500, Failed(AuthDeleteFailed, m));
        case EffectThrew(d) => resp := Fault(d);
      }
    }
  }
}
