/** Specification of the governor event wrapper (__cpufreq_governor), of
    __cpufreq_driver_target and of __cpufreq_set_policy, on one policy. */
module GovernorSpec {
  import opened CpufreqTypes
  import opened PolicyLimits

  /** What one governor event leaves behind: the return code, the policy (whose
      governor the latency fallback may have replaced), the per-governor
      module reference counts and the governor call made, if any. */
  datatype GovOut = GovOut(ret: int, policy: Policy, refs: map<string, int>, events: seq<Event>)

  /** The governor's hardware-latency limit is set and the hardware exceeds it. */
  predicate TooSlow(p: Policy)
    requires p.governor.Some?
  {
    p.governor.value.maxTransitionLatency != 0 &&
    p.cpuinfo.transitionLatency > p.governor.value.maxTransitionLatency
  }

  /** The net change of a governor's module references for one event: one
      reference is kept per successfully started policy. */
  function RefDelta(event: GovEvent, ret: int): int {
    if event == GovStart && ret == 0 then 1
    else if event == GovStop && ret == 0 then -1
    else 0
  }

  /** __cpufreq_governor(policy, event). A policy without a governor would be a
      NULL dereference in the wrapper; here it is -EFAULT with no effect. */
  function GovernorCall(env: Env, id: PolicyId, p: Policy, refs: map<string, int>, event: GovEvent)
    : (r: GovOut)
    ensures r.policy == p.(governor := r.policy.governor)
    ensures p.governor.None? ==> r == GovOut(-EFAULT, p, refs, [])
    ensures p.governor.Some? && TooSlow(p) && env.fallback.None? ==> r == GovOut(-EINVAL, p, refs, [])
    ensures p.governor.Some? && TooSlow(p) && env.fallback.Some? ==> r.policy.governor == env.fallback
    ensures p.governor.Some? && !TooSlow(p) ==> r.policy.governor == p.governor
    ensures r.events == [] ==> r.refs == refs && r.ret != 0
    ensures r.events != [] ==>
              && r.policy.governor.Some?
              && env.governorModuleOk(r.policy.governor.value.name)
              && r.events == [GovernorInvoked(id, r.policy.governor.value.name, event, r.ret)]
              && r.ret == env.governorResult(r.policy.governor.value.name, event)
              && r.refs == refs[r.policy.governor.value.name :=
                                  RefOf(refs, r.policy.governor.value.name) + RefDelta(event, r.ret)]
    ensures |r.events| <= 1 && forall k :: 0 <= k < |r.events| ==> r.events[k].GovernorInvoked?
  {
    if p.governor.None? then GovOut(-EFAULT, p, refs, [])
    else if TooSlow(p) && env.fallback.None? then GovOut(-EINVAL, p, refs, [])
    else
      var q := if TooSlow(p) then p.(governor := env.fallback) else p;
      var name := q.governor.value.name;
      if !env.governorModuleOk(name) then GovOut(-EINVAL, q, refs, [])
      else
        var ret := env.governorResult(name, event);
        GovOut(ret, q, refs[name := RefOf(refs, name) + RefDelta(event, ret)],
               [GovernorInvoked(id, name, event, ret)])
  }

  /** The governor module's references after the calls traced in `events`,
      counted from `refs`. */
  function Replay(refs: map<string, int>, events: seq<Event>): (r: map<string, int>)
    decreases |events|
  {
    if |events| == 0 then refs
    else match events[|events| - 1]
      case GovernorInvoked(_, name, ev, ret) =>
        var prev := Replay(refs, events[..|events| - 1]);
        prev[name := RefOf(prev, name) + RefDelta(ev, ret)]
      case _ => Replay(refs, events[..|events| - 1])
  }

  /** Replaying two traces in sequence is replaying their concatenation. */
  lemma {:induction false} ReplayAppend(refs: map<string, int>, a: seq<Event>, b: seq<Event>)
    ensures Replay(Replay(refs, a), b) == Replay(refs, a + b)
    decreases |b|
  {
    if |b| > 0 {
      ReplayAppend(refs, a, b[..|b| - 1]);
      assert (a + b)[..|a + b| - 1] == a + b[..|b| - 1];
      assert (a + b)[|a + b| - 1] == b[|b| - 1];
    } else {
      assert a + b == a;
    }
  }

  /** A successful START followed by a successful STOP of the same governor
      gives back the reference it took. */
  lemma StartStopBalanced(env: Env, id: PolicyId, p: Policy, refs: map<string, int>)
    requires p.governor.Some? && !TooSlow(p) && env.governorModuleOk(p.governor.value.name)
    requires env.governorResult(p.governor.value.name, GovStart) == 0
    requires env.governorResult(p.governor.value.name, GovStop) == 0
    ensures var s := GovernorCall(env, id, p, refs, GovStart);
            var t := GovernorCall(env, id, s.policy, s.refs, GovStop);
            RefOf(t.refs, p.governor.value.name) == RefOf(refs, p.governor.value.name)
  {
  }

  /** __cpufreq_driver_target without the vendor battery limit: -ENODEV when the
      core is disabled, 0 without calling the driver when the target is the
      current frequency, otherwise the driver's answer if the owning CPU is
      online and the driver has `target`, else -EINVAL. The code reads the
      driver slot without a check, since a policy exists only while a driver
      is registered; the `c.driver.Some?` test stands for that. */
  function DriverTarget(c: Core, env: Env, id: PolicyId, p: Policy, freq: nat, relation: nat)
    : (r: (int, seq<Event>))
    ensures c.off ==> r == (-ENODEV, [])
    ensures !c.off && freq == p.cur ==> r == (0, [])
    ensures r.1 != [] <==> !c.off && freq != p.cur && p.cpu in env.online && c.driver.Some? && c.driver.value.hasTarget
    ensures r.1 != [] ==> r == (env.target(p, freq, relation), [Event.DriverTarget(id, freq, relation)])
    ensures r.1 == [] && !c.off && freq != p.cur ==> r.0 == -EINVAL
  {
    if c.off then (-ENODEV, [])
    else if freq == p.cur then (0, [])
    else if p.cpu in env.online && c.driver.Some? && c.driver.value.hasTarget then
      (env.target(p, freq, relation), [Event.DriverTarget(id, freq, relation)])
    else (-EINVAL, [])
  }

  /** The candidate __cpufreq_set_policy validates: the request with its
      limits clamped against PM-QoS and the user bounds, and the live
      policy's cpuinfo. */
  function Candidate(env: Env, data: Policy, req: Policy): Policy
  {
    var b := Clamp(req.min, req.max, env.qosMin, env.qosMax, data.user);
    req.(min := b.min, max := b.max, cpuinfo := data.cpuinfo)
  }

  /** The validation phase of __cpufreq_set_policy: the clamped request with
      the policy's cpuinfo, checked against the user bounds, then `verify`,
      the notifier adjustment and `verify` again. Returns the first failure, or
      0 and the candidate that will be committed. */
  function Admit(env: Env, data: Policy, req: Policy): (r: (int, Policy))
    ensures var b := Clamp(req.min, req.max, env.qosMin, env.qosMax, data.user);
            (b.min > data.user.max || b.max < data.user.min) ==> r == (-EINVAL, Candidate(env, data, req))
    ensures (req.min > data.user.max || req.max < data.user.min) ==> r.0 == -EINVAL
    ensures r.0 == 0 ==> !(req.min > data.user.max || req.max < data.user.min)
    ensures r.0 == 0 ==> exists v :: env.verify(v) == Checked(0, r.1)
    // within the user bounds: `verify` of the candidate, the notifier
    // adjustment of what it left, `verify` again; the first failure is the answer
    ensures var b := Clamp(req.min, req.max, env.qosMin, env.qosMax, data.user);
            var v1 := env.verify(Candidate(env, data, req));
            var v2 := env.verify(env.adjust(v1.policy));
            !(b.min > data.user.max || b.max < data.user.min) ==>
              && (v1.ret != 0 ==> r == (v1.ret, v1.policy))
              && (v1.ret == 0 ==> r == (v2.ret, v2.policy))
    ensures var v1 := env.verify(Candidate(env, data, req));
            r.0 == 0 ==> v1.ret == 0 && env.verify(env.adjust(v1.policy)) == Checked(0, r.1)
  {
    var b := Clamp(req.min, req.max, env.qosMin, env.qosMax, data.user);
    var cand := Candidate(env, data, req);
    if b.min > data.user.max || b.max < data.user.min then (-EINVAL, cand)
    else
      var v1 := env.verify(cand);
      if v1.ret != 0 then (v1.ret, v1.policy)
      else
        var v2 := env.verify(env.adjust(v1.policy));
        if v2.ret != 0 then (v2.ret, v2.policy)
        else (0, v2.policy)
  }

  /** What __cpufreq_set_policy leaves behind: its return code, the live policy
      `data`, the governor module references, the calls made in order, and the
      candidate as the caller sees it afterwards. */
  datatype SetOut = SetOut(ret: int, data: Policy, refs: map<string, int>, events: seq<Event>, cand: Policy)

  /** __cpufreq_set_policy(data, req) for the driver `drv`. */
  function SetPolicy(env: Env, drv: Driver, id: PolicyId, data: Policy, refs: map<string, int>, req: Policy)
    : (r: SetOut)
    // the caller's candidate keeps its requested limits on every path
    ensures r.cand.min == req.min && r.cand.max == req.max
    // a failed validation changes nothing and calls no one
    ensures Admit(env, data, req).0 != 0 ==>
              r.ret == Admit(env, data, req).0 && r.data == data && r.refs == refs && r.events == []
    // otherwise the verified limits are committed
    ensures Admit(env, data, req).0 == 0 ==>
              r.data.min == Admit(env, data, req).1.min && r.data.max == Admit(env, data, req).1.max
    ensures r.data.cpu == data.cpu && r.data.cpus == data.cpus && r.data.user == data.user && r.data.cur == data.cur
    // setpolicy drivers take the mode and never see a governor event
    ensures drv.hasSetpolicy ==> r.refs == refs && r.data.governor == data.governor
    ensures drv.hasSetpolicy && Admit(env, data, req).0 == 0 ==>
              && r.ret == env.setpolicy(Admit(env, data, req).1)
              && r.data.mode == Admit(env, data, req).1.mode
              && r.events == [DriverSetpolicy(id, r.data.min, r.data.max)]
    // an unchanged governor only sees LIMITS, and keeps its references
    ensures !drv.hasSetpolicy && Admit(env, data, req).0 == 0 &&
            Admit(env, data, req).1.governor == data.governor ==>
              && r.ret == 0 && (forall n :: RefOf(r.refs, n) == RefOf(refs, n))
              && forall k :: 0 <= k < |r.events| ==> r.events[k].GovernorInvoked? && r.events[k].event == GovLimits
    // a changed governor is switched: STOP the old one, START the new one, and
    // on failure restart the old one and answer -EINVAL (see SwitchGovernor)
    ensures !drv.hasSetpolicy && Admit(env, data, req).0 == 0 &&
            Admit(env, data, req).1.governor != data.governor ==>
              var d1 := data.(min := Admit(env, data, req).1.min, max := Admit(env, data, req).1.max);
              var sw := SwitchGovernor(env, id, d1, refs, Admit(env, data, req).1.governor);
              r.ret == sw.ret && r.data == sw.policy && r.refs == sw.refs && r.events == sw.events
    ensures !drv.hasSetpolicy ==> r.data.mode == data.mode
    // the calls it makes are to the governors or to `setpolicy`, never `exit`
    ensures forall k :: 0 <= k < |r.events| ==> !r.events[k].DriverExit?
  {
    var adm := Admit(env, data, req);
    var cand := adm.1.(min := req.min, max := req.max);
    if adm.0 != 0 then SetOut(adm.0, data, refs, [], cand)
    else
      var d1 := data.(min := adm.1.min, max := adm.1.max);
      if drv.hasSetpolicy then
        var d2 := d1.(mode := adm.1.mode);
        SetOut(env.setpolicy(adm.1), d2, refs, [DriverSetpolicy(id, d2.min, d2.max)], cand)
      else if adm.1.governor == d1.governor then
        var lim := GovernorCall(env, id, d1, refs, GovLimits);
        SetOut(0, lim.policy, lim.refs, lim.events, cand)
      else
        var sw := SwitchGovernor(env, id, d1, refs, adm.1.governor);
        SetOut(sw.ret, sw.policy, sw.refs, sw.events, cand)
  }

  /** The first step of a governor switch: STOP the old governor if there is one. */
  function StopOld(env: Env, id: PolicyId, d: Policy, refs: map<string, int>): (r: GovOut)
    ensures r.policy == d.(governor := r.policy.governor)
    ensures |r.events| <= 1 && forall k :: 0 <= k < |r.events| ==> r.events[k].GovernorInvoked?
    ensures d.governor.None? ==> r == GovOut(0, d, refs, [])
    ensures d.governor.Some? && !TooSlow(d) && env.governorModuleOk(d.governor.value.name) ==>
              r.events == [GovernorInvoked(id, d.governor.value.name, GovStop,
                                           env.governorResult(d.governor.value.name, GovStop))]
  {
    if d.governor.Some? then GovernorCall(env, id, d, refs, GovStop) else GovOut(0, d, refs, [])
  }

  /** The governor switch of __cpufreq_set_policy: STOP the old governor if
      there is one, START the new one; if that fails, put the old governor back,
      START it again and answer -EINVAL; otherwise send LIMITS and answer 0. */
  function SwitchGovernor(env: Env, id: PolicyId, d: Policy, refs: map<string, int>, next: Option<Governor>)
    : (r: GovOut)
    ensures r.policy == d.(governor := r.policy.governor)
    ensures r.ret == 0 || r.ret == -EINVAL
    // the old governor, when it can be called, is stopped first
    ensures d.governor.Some? && !TooSlow(d) && env.governorModuleOk(d.governor.value.name) ==>
              |r.events| >= 1 &&
              r.events[0] == GovernorInvoked(id, d.governor.value.name, GovStop,
                                             env.governorResult(d.governor.value.name, GovStop))
    // success is exactly a successful START of the new governor
    ensures r.ret == 0 <==> GovernorCall(env, id, d.(governor := next), StopOld(env, id, d, refs).refs, GovStart).ret == 0
    ensures r.ret == 0 ==> r.policy.governor == next || r.policy.governor == env.fallback
    // on failure the old governor is back (up to the latency fallback) ...
    ensures r.ret != 0 && d.governor.Some? ==>
              r.policy.governor == d.governor || (TooSlow(d) && r.policy.governor == env.fallback)
    // ... and was started again, as the last call
    ensures r.ret != 0 && d.governor.Some? && !TooSlow(d) && env.governorModuleOk(d.governor.value.name) ==>
              |r.events| >= 1 &&
              r.events[|r.events| - 1] == GovernorInvoked(id, d.governor.value.name, GovStart,
                                                          env.governorResult(d.governor.value.name, GovStart))
    // on failure without an old governor the failed one stays in place
    ensures r.ret != 0 && d.governor.None? ==> r.policy.governor == next || r.policy.governor == env.fallback
    ensures forall k :: 0 <= k < |r.events| ==> r.events[k].GovernorInvoked?
  {
    var stop := StopOld(env, id, d, refs);
    var start := GovernorCall(env, id, stop.policy.(governor := next), stop.refs, GovStart);
    assert stop.policy.(governor := next) == d.(governor := next);
    if start.ret != 0 then
      if d.governor.Some? then
        var again := GovernorCall(env, id, start.policy.(governor := d.governor), start.refs, GovStart);
        GovOut(-EINVAL, again.policy, again.refs, stop.events + start.events + again.events)
      else
        GovOut(-EINVAL, start.policy, start.refs, stop.events + start.events)
    else
      var lim := GovernorCall(env, id, start.policy, start.refs, GovLimits);
      GovOut(0, lim.policy, lim.refs, stop.events + start.events + lim.events)
  }

  /** STOP, a new CPU mask, START and LIMITS on one policy: how the core
      regroups the CPUs of a running policy. */
  function Restart(env: Env, id: PolicyId, p: Policy, refs: map<string, int>, cpus: set<CpuId>): (r: GovOut)
    ensures r.policy == p.(cpus := cpus, governor := r.policy.governor)
    ensures |r.events| <= 3 && forall k :: 0 <= k < |r.events| ==> r.events[k].GovernorInvoked?
    ensures p.governor.None? ==> r == GovOut(-EFAULT, p.(cpus := cpus), refs, [])
    ensures p.governor.Some? && !TooSlow(p) && env.governorModuleOk(p.governor.value.name) ==>
              && |r.events| == 3
              && r.events[0].event == GovStop && r.events[1].event == GovStart && r.events[2].event == GovLimits
              && r.policy.governor == p.governor
  {
    var stop := GovernorCall(env, id, p, refs, GovStop);
    var start := GovernorCall(env, id, stop.policy.(cpus := cpus), stop.refs, GovStart);
    var lim := GovernorCall(env, id, start.policy, start.refs, GovLimits);
    GovOut(lim.ret, lim.policy, lim.refs, stop.events + start.events + lim.events)
  }

  /** The references the wrapper keeps are exactly those its trace accounts for. */
  lemma GovernorCallAccounted(env: Env, id: PolicyId, p: Policy, refs: map<string, int>, event: GovEvent)
    ensures var o := GovernorCall(env, id, p, refs, event);
            o.refs == Replay(refs, o.events)
  {
    var o := GovernorCall(env, id, p, refs, event);
    if o.events != [] {
      assert o.events[..0] == [];
    }
  }

  /** The references a governor switch leaves are those its trace accounts for. */
  lemma SwitchGovernorAccounted(env: Env, id: PolicyId, d: Policy, refs: map<string, int>, next: Option<Governor>)
    ensures var o := SwitchGovernor(env, id, d, refs, next);
            o.refs == Replay(refs, o.events)
  {
    var stop := StopOld(env, id, d, refs);
    if d.governor.Some? {
      GovernorCallAccounted(env, id, d, refs, GovStop);
    }
    var start := GovernorCall(env, id, stop.policy.(governor := next), stop.refs, GovStart);
    GovernorCallAccounted(env, id, stop.policy.(governor := next), stop.refs, GovStart);
    ReplayAppend(refs, stop.events, start.events);
    if start.ret != 0 {
      if d.governor.Some? {
        var again := GovernorCall(env, id, start.policy.(governor := d.governor), start.refs, GovStart);
        GovernorCallAccounted(env, id, start.policy.(governor := d.governor), start.refs, GovStart);
        ReplayAppend(refs, stop.events + start.events, again.events);
      }
    } else {
      var lim := GovernorCall(env, id, start.policy, start.refs, GovLimits);
      GovernorCallAccounted(env, id, start.policy, start.refs, GovLimits);
      ReplayAppend(refs, stop.events + start.events, lim.events);
    }
  }

  /** The governor references __cpufreq_set_policy leaves are exactly those
      its calls account for: +1 per successful START, -1 per successful STOP. */
  lemma SetPolicyAccounted(env: Env, drv: Driver, id: PolicyId, data: Policy, refs: map<string, int>, req: Policy)
    ensures var o := SetPolicy(env, drv, id, data, refs, req);
            o.refs == Replay(refs, o.events)
  {
    var adm := Admit(env, data, req);
    if adm.0 == 0 && !drv.hasSetpolicy {
      var d1 := data.(min := adm.1.min, max := adm.1.max);
      if adm.1.governor == d1.governor {
        GovernorCallAccounted(env, id, d1, refs, GovLimits);
      } else {
        SwitchGovernorAccounted(env, id, d1, refs, adm.1.governor);
      }
    } else if adm.0 == 0 {
      var o := SetPolicy(env, drv, id, data, refs, req);
      assert o.events[..0] == [];
    }
  }
}
