/** The core's routines on plain values: one policy, its governor module
    references and the calls made, as __cpufreq_governor, the governor switch
    and __cpufreq_set_policy work on them, and the list and mask walks. */
module CoreOps {
  import opened CpufreqTypes
  import opened GovernorNames
  import opened PolicyLimits
  import opened GovernorSpec
  import opened AddSpec

  /** __cpufreq_governor(policy, event) on one policy value: the latency
      fallback, a governor module reference taken around the callback, and one
      kept for every successful START and dropped by every successful STOP. */
  method CallGovernor(env: Env, id: PolicyId, p0: Policy, refs0: map<string, int>, event: GovEvent)
    returns (o: GovOut)
    ensures o == GovernorCall(env, id, p0, refs0, event)
  {
    var p := p0;
    if p.governor.None? {
      return GovOut(-EFAULT, p, refs0, []);
    }
    if TooSlow(p) {
      if env.fallback.None? {
        return GovOut(-EINVAL, p, refs0, []);
      }
      p := p.(governor := env.fallback);
    }
    var name := p.governor.value.name;
    if !env.governorModuleOk(name) {
      return GovOut(-EINVAL, p, refs0, []);
    }
    // try_module_get, the callback, then the module_put calls
    var count := RefOf(refs0, name) + 1;
    var ret := env.governorResult(name, event);
    if event != GovStart || ret != 0 {
      count := count - 1;
    }
    if event == GovStop && ret == 0 {
      count := count - 1;
    }
    o := GovOut(ret, p, refs0[name := count], [GovernorInvoked(id, name, event, ret)]);
  }

  /** The governor switch of __cpufreq_set_policy on one policy value: STOP
      the old governor, START the new one, and on failure put the old one back
      and START it again; on success send LIMITS. */
  method SwitchGovernors(env: Env, id: PolicyId, d: Policy, refs0: map<string, int>, next: Option<Governor>)
    returns (o: GovOut)
    ensures o == GovernorSpec.SwitchGovernor(env, id, d, refs0, next)
  {
    var p, refs, events := d, refs0, [];
    var oldGov := d.governor;
    if oldGov.Some? {
      var stop := CallGovernor(env, id, p, refs, GovStop);
      p, refs, events := stop.policy, stop.refs, stop.events;
    }
    p := p.(governor := next);
    var start := CallGovernor(env, id, p, refs, GovStart);
    p, refs, events := start.policy, start.refs, events + start.events;
    if start.ret != 0 {
      if oldGov.Some? {
        p := p.(governor := oldGov);
        var again := CallGovernor(env, id, p, refs, GovStart);
        p, refs, events := again.policy, again.refs, events + again.events;
      }
      return GovOut(-EINVAL, p, refs, events);
    }
    var lim := CallGovernor(env, id, p, refs, GovLimits);
    o := GovOut(0, lim.policy, lim.refs, events + lim.events);
  }

  /** __cpufreq_set_policy(data, req) on policy values: clamp the request to
      the PM-QoS and user bounds, verify, adjust, verify again, commit the
      limits, then hand over to the driver or the governors; the caller's
      requested min and max are put back on every path. */
  method SetPolicyOn(env: Env, drv: Driver, id: PolicyId, data: Policy, refs: map<string, int>, req: Policy)
    returns (o: SetOut)
    ensures o == GovernorSpec.SetPolicy(env, drv, id, data, refs, req)
  {
    var pmin, pmax := req.min, req.max;
    var qmin := Min(env.qosMin, data.user.max);
    var qmax := Max(env.qosMax, data.user.min);
    var policy := req.(min := Max(pmin, qmin), max := Min(pmax, qmax), cpuinfo := data.cpuinfo);
    if policy.min > data.user.max || policy.max < data.user.min {
      return SetOut(-EINVAL, data, refs, [], policy.(min := pmin, max := pmax));
    }
    var v := env.verify(policy);
    if v.ret != 0 {
      return SetOut(v.ret, data, refs, [], v.policy.(min := pmin, max := pmax));
    }
    policy := env.adjust(v.policy);
    v := env.verify(policy);
    policy := v.policy;
    if v.ret != 0 {
      return SetOut(v.ret, data, refs, [], policy.(min := pmin, max := pmax));
    }
    var d := data.(min := policy.min, max := policy.max);
    if drv.hasSetpolicy {
      d := d.(mode := policy.mode);
      var ret := env.setpolicy(policy);
      return SetOut(ret, d, refs, [DriverSetpolicy(id, d.min, d.max)], policy.(min := pmin, max := pmax));
    }
    var ret := 0;
    var r, events := refs, [];
    if policy.governor != d.governor {
      var sw := SwitchGovernors(env, id, d, r, policy.governor);
      ret, d, r, events := sw.ret, sw.policy, sw.refs, sw.events;
    } else {
      var lim := CallGovernor(env, id, d, r, GovLimits);
      d, r, events := lim.policy, lim.refs, lim.events;
    }
    o := SetOut(ret, d, r, events, policy.(min := pmin, max := pmax));
  }

  /** __find_governor(name): walks the list from the head. */
  method FindGovernor(govs: seq<Governor>, name: string) returns (r: Option<Governor>)
    ensures r == Find(govs, name)
  {
    var i := 0;
    while i < |govs|
      invariant i <= |govs|
      invariant Find(govs[i..], name) == Find(govs, name)
    {
      if NameEq(name, govs[i].name) {
        return Some(govs[i]);
      }
      assert govs[i..][1..] == govs[i + 1..];
      i := i + 1;
    }
    assert govs[i..] == [];
    return None;
  }

  /** Restart on policy values: STOP, the new mask, START, LIMITS. */
  method RestartOn(env: Env, id: PolicyId, p: Policy, refs: map<string, int>, cpus: set<CpuId>)
    returns (o: GovOut)
    ensures o == Restart(env, id, p, refs, cpus)
  {
    var stop := CallGovernor(env, id, p, refs, GovStop);
    var start := CallGovernor(env, id, stop.policy.(cpus := cpus), stop.refs, GovStart);
    var lim := CallGovernor(env, id, start.policy, start.refs, GovLimits);
    o := GovOut(lim.ret, lim.policy, lim.refs, stop.events + start.events + lim.events);
  }

  /** cpumask_weight(s) over the first nr CPUs, counted upwards. */
  method Weight(s: set<CpuId>, nr: nat) returns (n: nat)
    ensures n == CountIn(s, 0, nr)
  {
    n := 0;
    var j := 0;
    while j < nr
      invariant j <= nr && n == CountIn(s, 0, j)
    {
      CountInStep(s, 0, j);
      if j in s {
        n := n + 1;
      }
      j := j + 1;
    }
  }

  /** cpumask_first(s) over the first nr CPUs. */
  method First(s: set<CpuId>, nr: nat) returns (f: nat)
    ensures f == FirstFrom(s, 0, nr)
  {
    f := 0;
    while f < nr && f !in s
      invariant f <= nr
      invariant forall j :: 0 <= j < f ==> j !in s
    {
      f := f + 1;
    }
    FirstFromIs(s, 0, nr, f);
  }

  /** The restore step of cpufreq_add_dev_policy on a policy value: the saved
      governor if one of that name is registered, the saved min and max where
      they are nonzero. */
  method RestoreOn(govs: seq<Governor>, s: Snapshot, p0: Policy) returns (p: Policy)
    ensures p == Restore(govs, s, p0)
  {
    p := p0;
    var gov := FindGovernor(govs, s.gov);
    if gov.Some? {
      p := p.(governor := gov);
    }
    if s.min != 0 {
      p := p.(min := s.min, user := p.user.(min := s.min));
    }
    if s.max != 0 {
      p := p.(max := s.max, user := p.user.(max := s.max));
    }
  }
}
