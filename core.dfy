/** The cpufreq core as one object: the per-CPU tables, the policy arena, the
    governor list, the driver slot and the reference counts, updated in place
    by the core routines of drivers/cpufreq/cpufreq.c. Every method is proved
    against the specification functions of the other modules. */
module Cpufreq {
  import opened CpufreqTypes
  import opened GovernorNames
  import opened PolicyLimits
  import opened RegistrySpec
  import opened GovernorSpec
  import opened TransitionSpec
  import opened PolicySpec
  import opened AddSpec
  import opened RemoveSpec
  import opened DriverSpec
  import opened CoreOps
  import Hotplug
  import Registration

  class CpufreqCore {
    /** nr_cpu_ids. */
    const nr: nat
    /** cpufreq_disabled(). */
    var off: bool
    /** cpufreq_driver. */
    var driver: Option<Driver>
    /** cpufreq_governor_list, head first. */
    var governors: seq<Governor>
    /** per_cpu(cpufreq_cpu_data). */
    var cpuData: map<CpuId, PolicyId>
    /** per_cpu(cpufreq_policy_cpu). */
    var policyCpu: map<CpuId, CpuId>
    /** per_cpu(cpufreq_policy_save). */
    var save: map<CpuId, Snapshot>
    /** Every policy ever allocated, by allocation number. */
    var policies: map<PolicyId, Policy>
    /** The allocated policies not yet freed. */
    var live: set<PolicyId>
    var nextId: PolicyId
    /** References held on the driver module. */
    var driverRefs: int
    /** References held on each governor module. */
    var govRefs: map<string, int>
    /** The policy rwsems currently held. */
    var held: multiset<Hold>
    /** The calls made to drivers, governors and notifiers, in order. */
    var trace: seq<Event>

    function Abs(): Core
      reads this
    {
      Core(off, driver, governors, cpuData, policyCpu, save, policies, live, nextId,
           driverRefs, govRefs, held, trace)
    }

    /** Inv on the fields themselves, and governor names unique up to case. */
    predicate Valid()
      reads this
    {
      && (forall x :: x in cpuData ==> cpuData[x] in policies && x in policyCpu)
      && (forall i :: i in policies ==> i < nextId)
      && live <= policies.Keys
      && UniqueNames(governors)
    }

    lemma ValidIsInv()
      requires Valid()
      ensures Inv(Abs())
    {
    }

    /** The core at boot: no driver, no governor, no policy. */
    constructor (nr: nat, off: bool)
      ensures Valid() && this.nr == nr
      ensures Abs() == Core(off, None, [], map[], map[], map[], map[], {}, 0, 0, map[], multiset{}, [])
    {
      this.nr := nr;
      this.off := off;
      driver := None;
      governors := [];
      cpuData := map[];
      policyCpu := map[];
      save := map[];
      policies := map[];
      live := {};
      nextId := 0;
      driverRefs := 0;
      govRefs := map[];
      held := multiset{};
      trace := [];
    }

    /** __cpufreq_cpu_get(cpu, sysfs). */
    method CpuGet(env: Env, cpu: CpuId, sysfs: bool) returns (r: Option<PolicyId>)
      requires Valid()
      modifies this`driverRefs, this`policies
      ensures Valid()
      ensures (r, Abs()) == RegistrySpec.CpuGet(old(Abs()), env, nr, cpu, sysfs)
    {
      if cpu >= nr || driver.None? || !env.driverModuleOk {
        return None;
      }
      if cpu !in cpuData {
        return None;
      }
      var id := cpuData[cpu];
      driverRefs := driverRefs + 1;
      if !sysfs {
        policies := policies[id := policies[id].(kobjRefs := policies[id].kobjRefs + 1)];
      } else {
        assert policies == policies[id := policies[id]];
      }
      r := Some(id);
    }

    /** __cpufreq_cpu_put(policy `id`, sysfs). */
    method CpuPut(id: PolicyId, sysfs: bool)
      requires Valid() && id in policies && driver.Some?
      modifies this`driverRefs, this`policies
      ensures Valid()
      ensures Abs() == RegistrySpec.CpuPut(old(Abs()), id, sysfs)
    {
      if !sysfs {
        policies := policies[id := policies[id].(kobjRefs := policies[id].kobjRefs - 1)];
      }
      driverRefs := driverRefs - 1;
    }

    /** lock_policy_rwsem_write/read(cpu). */
    method Lock(env: Env, cpu: CpuId, write: bool) returns (ret: int)
      requires Valid() && cpu in policyCpu
      modifies this`held
      ensures Valid()
      ensures (ret, Abs()) == RegistrySpec.Lock(old(Abs()), env, cpu, write)
    {
      held := held + multiset{Hold(policyCpu[cpu], write)};
      if cpu !in env.online {
        held := held - multiset{Hold(policyCpu[cpu], write)};
        assert held == old(held);
        return -1;
      }
      ret := 0;
    }

    /** unlock_policy_rwsem_write/read(cpu). */
    method Unlock(cpu: CpuId, write: bool)
      requires Valid() && cpu in policyCpu
      modifies this`held
      ensures Valid()
      ensures Abs() == RegistrySpec.Unlock(old(Abs()), cpu, write)
    {
      held := held - multiset{Hold(policyCpu[cpu], write)};
    }

    /** __cpufreq_governor(policy `id`, event), on the policy in the arena. */
    method Governor(env: Env, id: PolicyId, event: GovEvent) returns (ret: int)
      requires Valid() && id in policies
      modifies this`policies, this`govRefs, this`trace
      ensures Valid()
      ensures var o := GovernorCall(env, id, old(policies)[id], old(govRefs), event);
              ret == o.ret && policies == old(policies)[id := o.policy] && govRefs == o.refs &&
              trace == old(trace) + o.events
    {
      var o := CallGovernor(env, id, policies[id], govRefs, event);
      ret := o.ret;
      policies := policies[id := o.policy];
      govRefs := o.refs;
      trace := trace + o.events;
    }

    /** The governor switch inside __cpufreq_set_policy, on the policy in the arena. */
    method SwitchGovernor(env: Env, id: PolicyId, next: Option<Governor>) returns (ret: int)
      requires Valid() && id in policies
      modifies this`policies, this`govRefs, this`trace
      ensures Valid()
      ensures var o := GovernorSpec.SwitchGovernor(env, id, old(policies)[id], old(govRefs), next);
              ret == o.ret && policies == old(policies)[id := o.policy] && govRefs == o.refs &&
              trace == old(trace) + o.events
    {
      var o := SwitchGovernors(env, id, policies[id], govRefs, next);
      ret := o.ret;
      policies := policies[id := o.policy];
      govRefs := o.refs;
      trace := trace + o.events;
    }

    /** __cpufreq_set_policy(policy `id`, req): returns the code and the
        candidate as the caller sees it afterwards. */
    method SetPolicy(env: Env, id: PolicyId, req: Policy) returns (ret: int, cand: Policy)
      requires Valid() && id in policies && driver.Some?
      modifies this`policies, this`govRefs, this`trace
      ensures Valid()
      ensures var o := GovernorSpec.SetPolicy(env, driver.value, id, old(policies)[id], old(govRefs), req);
              ret == o.ret && cand == o.cand && policies == old(policies)[id := o.data] &&
              govRefs == o.refs && trace == old(trace) + o.events
    ensures (ret, Abs(), cand) == SetPolicyCore(old(Abs()), env, id, req)
    {
      var o := SetPolicyOn(env, driver.value, id, policies[id], govRefs, req);
      ret, cand := o.ret, o.cand;
      policies := policies[id := o.data];
      govRefs := o.refs;
      trace := trace + o.events;
    }

    /** cpufreq_notify_transition(freqs, state). */
    method NotifyTransition(freqs: Freqs, state: TransitionState) returns (f: Freqs)
      requires Valid() && driver.Some?
      modifies this`policies, this`trace
      ensures Valid()
      ensures (f, Abs()) == TransitionSpec.NotifyTransition(old(Abs()), freqs, state)
    {
      f := freqs.(flags := driver.value.flags);
      var owned := f.cpu in cpuData && policies[cpuData[f.cpu]].cpu == f.cpu;
      if state == PreChange {
        if ConstLoops !in driver.value.flags {
          if owned && policies[cpuData[f.cpu]].cur != 0 && policies[cpuData[f.cpu]].cur != f.oldFreq {
            f := f.(oldFreq := policies[cpuData[f.cpu]].cur);
          }
        }
        trace := trace + [Transition(PreChange, f)];
      } else if state == PostChange {
        trace := trace + [Transition(PostChange, f)];
        if owned {
          var id := cpuData[f.cpu];
          policies := policies[id := policies[id].(cur := f.newFreq)];
        }
      }
    }

    /** cpufreq_out_of_sync(cpu, old, new). */
    method OutOfSync(cpu: CpuId, oldFreq: nat, newFreq: nat)
      requires Valid() && driver.Some?
      modifies this`policies, this`trace
      ensures Valid()
      ensures Abs() == TransitionSpec.OutOfSync(old(Abs()), cpu, oldFreq, newFreq)
    {
      var freqs := Freqs(cpu, oldFreq, newFreq, {});
      freqs := NotifyTransition(freqs, PreChange);
      freqs := NotifyTransition(freqs, PostChange);
    }

    /** __cpufreq_get(cpu). */
    method Get(env: Env, cpu: CpuId) returns (freq: nat)
      requires Valid() && driver.Some? && cpu in cpuData
      modifies this`policies, this`trace
      ensures Valid()
      ensures (freq, Abs()) == TransitionSpec.Get(old(Abs()), env, cpu)
    {
      if !driver.value.hasGet {
        return 0;
      }
      freq := env.get(cpu);
      var id := cpuData[cpu];
      if freq != 0 && policies[id].cur != 0 && ConstLoops !in driver.value.flags {
        if freq != policies[id].cur {
          OutOfSync(cpu, policies[id].cur, freq);
          trace := trace + [UpdateScheduled(id)];
        }
      }
    }

    /** __cpufreq_driver_target(policy `id`, target, relation), without the
        battery-limit block. */
    method DriverTarget(env: Env, id: PolicyId, freq: nat, relation: nat) returns (ret: int)
      requires Valid() && id in policies
      modifies this`trace
      ensures Valid()
      ensures var r := GovernorSpec.DriverTarget(old(Abs()), env, id, old(policies[id]), freq, relation);
              ret == r.0 && Abs() == old(Abs()).(trace := old(trace) + r.1)
    {
      if off {
        return -ENODEV;
      }
      var p := policies[id];
      if freq == p.cur {
        return 0;
      }
      ret := -EINVAL;
      if p.cpu in env.online && driver.Some? && driver.value.hasTarget {
        ret := env.target(p, freq, relation);
        trace := trace + [Event.DriverTarget(id, freq, relation)];
      }
    }

    /** cpufreq_update_policy(cpu). */
    method UpdatePolicy(env: Env, cpu: CpuId) returns (ret: int)
      requires Valid()
      modifies this`driverRefs, this`policies, this`held, this`govRefs, this`trace
      ensures Valid()
      ensures (ret, Abs()) == PolicySpec.UpdatePolicy(old(Abs()), env, nr, cpu)
    {
      var data := CpuGet(env, cpu, false);
      if data.None? {
        return -ENODEV;
      }
      var id := data.value;
      var lk := Lock(env, cpu, true);
      if lk != 0 {
        CpuPut(id, false);
        return -EINVAL;
      }
      ret := Reapply(env, cpu, id);
      Unlock(cpu, true);
      CpuPut(id, false);
    }

    /** The `cur` repair of cpufreq_update_policy. */
    method Resync(env: Env, cpu: CpuId, id: PolicyId)
      requires Valid() && driver.Some? && cpu in cpuData && cpuData[cpu] == id
      modifies this`policies, this`trace
      ensures Valid()
      ensures Abs() == PolicySpec.Resync(old(Abs()), env, cpu, id)
    {
      if driver.value.hasGet {
        var q := env.get(cpu);
        if policies[id].cur == 0 {
          policies := policies[id := policies[id].(cur := q)];
        } else if policies[id].cur != q {
          OutOfSync(cpu, policies[id].cur, q);
        }
      }
    }

    /** The locked part of cpufreq_update_policy. */
    method Reapply(env: Env, cpu: CpuId, id: PolicyId) returns (ret: int)
      requires Valid() && driver.Some? && cpu in cpuData && cpuData[cpu] == id
      modifies this`policies, this`govRefs, this`trace
      ensures Valid()
      ensures (ret, Abs()) == PolicySpec.Reapply(old(Abs()), env, cpu, id)
    {
      var req := UserRequest(policies[id], if driver.value.hasGet then env.get(cpu) else policies[id].cur);
      Resync(env, cpu, id);
      ret, req := SetPolicy(env, id, req);
    }

    /** store_scaling_min_freq / store_scaling_max_freq on policy `id`. */
    method StoreLimit(env: Env, id: PolicyId, which: Limit, value: Option<nat>, count: nat) returns (ret: int)
      requires Valid() && driver.Some? && id in policies
      modifies this`driverRefs, this`policies, this`govRefs, this`trace
      ensures Valid()
      ensures (ret, Abs()) == PolicySpec.StoreLimit(old(Abs()), env, nr, id, which, value, count)
    {
      ghost var c := Abs();
      var got := CpuGet(env, policies[id].cpu, false);
      if got.None? {
        return -EINVAL;
      }
      var req := policies[got.value];
      CpuPut(got.value, false);
      GetPutBalanced(c, env, nr, c.policies[id].cpu, false);
      if value.None? {
        return -EINVAL;
      }
      // a request `verify` turns down is only logged, and used all the same
      var checked := env.verify(Written(req, which, value.value));
      ret := StoreChecked(env, id, which, checked.policy, count);
    }

    /** The end of store_one: the user limits, the set-policy, the written
        limit recorded once more. */
    method StoreChecked(env: Env, id: PolicyId, which: Limit, v: Policy, count: nat) returns (ret: int)
      requires Valid() && driver.Some? && id in policies
      modifies this`policies, this`govRefs, this`trace
      ensures Valid()
      ensures (ret, Abs()) == PolicySpec.StoreChecked(old(Abs()), env, id, which, v, count)
    {
      SetUser(id, v.min, v.max);
      var cand;
      ret, cand := SetPolicy(env, id, v);
      if which == MinLimit {
        SetUser(id, cand.min, policies[id].user.max);
      } else {
        SetUser(id, policies[id].user.min, cand.max);
      }
      if ret == 0 {
        ret := count;
      }
    }

    /** Policy `id`'s user limits set to `min` and `max`. */
    method SetUser(id: PolicyId, min: nat, max: nat)
      requires Valid() && id in policies
      modifies this`policies
      ensures Valid() && Abs() == WithUser(old(Abs()), id, min, max)
    {
      policies := policies[id := policies[id].(user := policies[id].user.(min := min, max := max))];
    }

    /** cpufreq_parse_governor(name). */
    method ParseGovernor(name: string) returns (ret: int, parsed: Option<Parsed>)
      ensures (ret, parsed) == RegistrySpec.ParseGovernor(Abs(), name)
    {
      ret, parsed := -EINVAL, None;
      if driver.None? {
        return;
      }
      if driver.value.hasSetpolicy {
        if NameEq(name, "performance") {
          ret, parsed := 0, Some(ParsedMode(Performance));
        } else if NameEq(name, "powersave") {
          ret, parsed := 0, Some(ParsedMode(Powersave));
        }
      } else if driver.value.hasTarget {
        var t := FindGovernor(governors, name);
        if t.Some? {
          ret, parsed := 0, Some(ParsedGovernor(t.value));
        }
      }
    }

    /** cpufreq_register_governor(g). */
    method RegisterGovernor(g: Option<Governor>) returns (ret: int)
      requires Valid()
      modifies this`governors
      ensures Valid()
      ensures (ret, Abs()) == RegistrySpec.RegisterGovernor(old(Abs()), g)
    {
      if g.None? {
        return -EINVAL;
      }
      if off {
        return -ENODEV;
      }
      ret := -EBUSY;
      var t := FindGovernor(governors, g.value.name);
      if t.None? {
        ret := 0;
        governors := [g.value] + governors;
      }
    }

    /** cpufreq_unregister_governor(g): every offline CPU forgets its saved
        limits, and its saved governor name if it is `g`'s; then `g` leaves
        the list. */
    method UnregisterGovernor(env: Env, g: Option<Governor>)
      requires Valid()
      modifies this`save, this`governors
      ensures Valid()
      ensures Abs() == RegistrySpec.UnregisterGovernor(old(Abs()), env, nr, g)
    {
      if g.None? || off {
        return;
      }
      var name := g.value.name;
      var cpu := 0;
      while cpu < nr
        invariant cpu <= nr
        invariant ForgetSaved(save, env.online, name, cpu, nr) == ForgetSaved(old(save), env.online, name, 0, nr)
        invariant governors == old(governors)
      {
        if cpu !in env.online {
          var s := SaveOf(save, cpu);
          save := save[cpu := Snapshot(if s.gov == name then "" else s.gov, 0, 0)];
        }
        cpu := cpu + 1;
      }
      WithoutUnique(governors, g.value);
      governors := Without(governors, g.value);
    }
  
    /** Stores state `s` in the fields. */
    method Load(s: Core)
      modifies this
      ensures Abs() == s
    {
      LoadTables(s);
      LoadPolicies(s);
      LoadSlots(s);
    }

    method LoadTables(s: Core)
      modifies this`cpuData, this`policyCpu, this`save
      ensures cpuData == s.cpuData && policyCpu == s.policyCpu && save == s.save
    {
      cpuData, policyCpu, save := s.cpuData, s.policyCpu, s.save;
    }

    method LoadPolicies(s: Core)
      modifies this`policies, this`live, this`nextId
      ensures policies == s.policies && live == s.live && nextId == s.nextId
    {
      policies, live, nextId := s.policies, s.live, s.nextId;
    }

    method LoadSlots(s: Core)
      modifies this`off, this`driver, this`governors, this`driverRefs, this`govRefs, this`held, this`trace
      ensures off == s.off && driver == s.driver && governors == s.governors
      ensures driverRefs == s.driverRefs && govRefs == s.govRefs && held == s.held && trace == s.trace
    {
      off, driver, governors := s.off, s.driver, s.governors;
      driverRefs, govRefs, held, trace := s.driverRefs, s.govRefs, s.held, s.trace;
    }

    /** cpufreq_add_dev(cpu), the subsys interface's add callback. */
    method AddDev(env: Env, cpu: CpuId) returns (ret: int)
      requires Valid() && driver.Some? && EnvOk(env, nr) && cpu < nr
      modifies this
      ensures Valid()
      ensures (ret, Abs()) == AddSpec.AddDev(old(Abs()), env, nr, cpu)
    {
      ValidIsInv();
      AddDevKeeps(Abs(), env, nr, cpu);
      var r;
      ret, r := Hotplug.AddDev(Abs(), env, nr, cpu);
      Load(r);
    }

    /** cpufreq_remove_dev(cpu), the subsys interface's remove callback. */
    method RemoveDev(env: Env, cpu: CpuId) returns (ret: int)
      requires Valid() && driver.Some? && EnvOk(env, nr) && cpu < nr
      modifies this
      ensures Valid()
      ensures (ret, Abs()) == RemoveSpec.RemoveCpu(old(Abs()), env, nr, cpu)
    {
      ValidIsInv();
      RemoveCpuKeeps(Abs(), env, nr, cpu);
      var r;
      ret, r := Hotplug.RemoveCpu(Abs(), env, nr, cpu);
      Load(r);
    }

    /** cpufreq_register_driver(d). */
    method RegisterDriver(env: Env, d: Driver) returns (ret: int)
      requires Valid() && EnvOk(env, nr)
      modifies this
      ensures Valid()
      ensures (ret, Abs()) == DriverSpec.RegisterDriver(old(Abs()), env, nr, d)
    {
      ValidIsInv();
      var r;
      ret, r := Registration.RegisterDriver(Abs(), env, nr, d);
      Load(r);
    }

    /** cpufreq_unregister_driver(d). */
    method UnregisterDriver(env: Env, d: Driver) returns (ret: int)
      requires Valid() && EnvOk(env, nr)
      modifies this
      ensures Valid()
      ensures (ret, Abs()) == DriverSpec.UnregisterDriver(old(Abs()), env, nr, d)
    {
      ValidIsInv();
      var r;
      ret, r := Registration.UnregisterDriver(Abs(), env, nr, d);
      Load(r);
    }
  }
}
