/** CPU addition and removal, cpufreq_add_dev, cpufreq_add_dev_policy,
    cpufreq_add_dev_interface and __cpufreq_remove_dev, as step-by-step
    procedures on the core's state, each proved to compute what AddSpec and
    RemoveSpec define. */
module Hotplug {
  import opened CpufreqTypes
  import opened GovernorNames
  import opened GovernorSpec
  import opened RegistrySpec
  import opened AddSpec
  import opened RemoveSpec
  import opened CoreOps

  /** The sibling scan of cpufreq_add_dev (for_each_online_cpu). */
  method ScanSibling(c: Core, env: Env, nr: nat, cpu: CpuId) returns (s: nat)
    requires Inv(c)
    ensures s == Sibling(c, env, nr, cpu)
  {
    s := 0;
    while s < nr
      invariant s <= nr
      invariant forall t :: 0 <= t < s && t in env.online && t in c.cpuData ==>
                  c.policies[c.cpuData[t]].governor.None? || cpu !in c.policies[c.cpuData[t]].relatedCpus
    {
      if s in env.online && s in c.cpuData {
        var cp := c.policies[c.cpuData[s]];
        if cp.governor.Some? && cpu in cp.relatedCpus {
          break;
        }
      }
      s := s + 1;
    }
    SiblingIs(c, env, nr, cpu, s);
  }

  /** The managed-CPU scan of cpufreq_add_dev_policy (for_each_cpu over the
      policy's mask, skipping `cpu`). */
  method ScanManaged(data: map<CpuId, PolicyId>, nr: nat, cpu: CpuId, cpus: set<CpuId>) returns (m: nat)
    ensures m == Managed(data, nr, cpu, cpus)
  {
    m := 0;
    while m < nr
      invariant m <= nr
      invariant forall j :: 0 <= j < m && j in cpus && j != cpu ==> j !in data
    {
      if m in cpus && m != cpu && m in data {
        break;
      }
      m := m + 1;
    }
    ManagedIs(data, nr, cpu, cpus, m);
  }

  /** The merge branch of cpufreq_add_dev_policy. */
  method Join(c: Core, env: Env, cpu: CpuId, id: PolicyId, m: CpuId) returns (r: Core)
    requires Inv(c) && c.driver.Some? && id in c.policies && m in c.cpuData
    ensures r == Joined(c, env, cpu, id, m)
  {
    var mid := c.cpuData[m];
    // cpufreq_cpu_get(m)
    var got := c.policies[mid].(kobjRefs := c.policies[mid].kobjRefs + 1);
    var o := RestartOn(env, mid, got, c.govRefs, c.policies[id].cpus * env.online);
    var trace := c.trace + o.events;
    if c.driver.value.hasExit {
      trace := trace + [DriverExit(id)];
    } else {
      assert trace == trace + [];
    }
    r := c.(cpuData := c.cpuData[cpu := mid], policyCpu := c.policyCpu[cpu := c.policies[mid].cpu],
            policies := c.policies[mid := o.policy], govRefs := o.refs, driverRefs := c.driverRefs + 1,
            trace := trace);
  }

  /** cpufreq_add_dev_policy(cpu, policy `id`). */
  method AddDevPolicy(c: Core, env: Env, nr: nat, cpu: CpuId, id: PolicyId) returns (ret: int, r: Core)
    requires Inv(c) && c.driver.Some? && id in c.policies
    ensures (ret, r) == DevPolicy(c, env, nr, cpu, id)
  {
    var p := RestoreOn(c.governors, SaveOf(c.save, cpu), c.policies[id]);
    r := c.(policies := c.policies[id := p]);
    var m := ScanManaged(r.cpuData, nr, cpu, p.cpus);
    if m == nr {
      return 0, r;
    }
    r := Join(r, env, cpu, id, m);
    ret := 1;
  }

  /** The binding loop of cpufreq_add_dev_interface on the two per-CPU
      maps: every CPU of `b` below nr is bound to policy `id` owned by
      `owner`. */
  method Assign(data: map<CpuId, PolicyId>, owners: map<CpuId, CpuId>, b: set<CpuId>, nr: nat,
                id: PolicyId, owner: CpuId) returns (d: map<CpuId, PolicyId>, o: map<CpuId, CpuId>)
    ensures d == Overwrite(data, Below(b, nr), id) && o == Overwrite(owners, Below(b, nr), owner)
  {
    d, o := data, owners;
    var j := 0;
    while j < nr
      invariant j <= nr
      invariant d == Overwrite(data, Below(b, j), id) && o == Overwrite(owners, Below(b, j), owner)
    {
      FillStep(data, b, j, id);
      FillStep(owners, b, j, owner);
      if j in b {
        d, o := d[j := id], o[j := owner];
      }
      j := j + 1;
    }
  }

  /** One step of a for_each_cpu loop that overwrites a per-CPU map. */
  lemma FillStep<V>(m: map<CpuId, V>, b: set<CpuId>, j: CpuId, v: V)
    ensures Overwrite(m, Below(b, j + 1), v)
            == if j in b then Overwrite(m, Below(b, j), v)[j := v] else Overwrite(m, Below(b, j), v)
  {
    if j in b {
      assert Below(b, j + 1) == Below(b, j) + {j};
      OverwriteStep(m, Below(b, j), j, v);
    } else {
      assert Below(b, j + 1) == Below(b, j);
    }
  }

  /** A for_each_cpu loop that unbinds every CPU of `b` below nr. */
  method Drop<V>(m: map<CpuId, V>, b: set<CpuId>, nr: nat) returns (r: map<CpuId, V>)
    ensures r == m - Below(b, nr)
  {
    r := m;
    var j := 0;
    while j < nr
      invariant j <= nr
      invariant r == m - Below(b, j)
    {
      if j in b {
        assert Below(b, j + 1) == Below(b, j) + {j};
        r := r - {j};
      } else {
        assert Below(b, j + 1) == Below(b, j);
      }
      j := j + 1;
    }
  }

  /** The second loop of the owner's removal: every CPU of `b` below nr gets
      snapshot `v` saved, and one reference is put for each. */
  method SaveAll(save: map<CpuId, Snapshot>, b: set<CpuId>, nr: nat, v: Snapshot)
      returns (s: map<CpuId, Snapshot>, n: nat)
    ensures s == Overwrite(save, Below(b, nr), v) && n == CountIn(b, 0, nr)
  {
    s, n := save, 0;
    var j := 0;
    while j < nr
      invariant j <= nr
      invariant s == Overwrite(save, Below(b, j), v) && n == CountIn(b, 0, j)
    {
      CountInStep(b, 0, j);
      FillStep(save, b, j, v);
      if j in b {
        s, n := s[j := v], n + 1;
      }
      j := j + 1;
    }
  }

  /** The binding loop of cpufreq_add_dev_interface: every online CPU of the
      mask is bound to policy `id` and its owner. */
  method Bind(c: Core, env: Env, nr: nat, id: PolicyId) returns (r: Core)
    requires Inv(c) && EnvOk(env, nr) && id in c.policies
    ensures r == Bound(c, env, id)
  {
    var b := c.policies[id].cpus * env.online;
    var data, owners := Assign(c.cpuData, c.policyCpu, b, nr, id, c.policies[id].cpu);
    assert Below(b, nr) == b;
    r := c.(cpuData := data, policyCpu := owners);
  }

  /** cpufreq_add_dev_symlink(cpu, policy `id`): the loop over the mask,
      one cpufreq_cpu_get(cpu) per linked CPU. */
  method Symlinks(c: Core, env: Env, nr: nat, cpu: CpuId, id: PolicyId) returns (r: Core)
    requires Inv(c) && id in c.policies
    ensures r == Linked(c, env, nr, cpu, id)
  {
    var links := Links(c.policies[id], env, cpu);
    var found := cpu < nr && c.driver.Some? && env.driverModuleOk && cpu in c.cpuData;
    var refs, kobj := c.driverRefs, 0;
    var j := 0;
    while j < nr
      invariant j <= nr
      invariant var n := if found then CountIn(links, 0, j) else 0;
                refs == c.driverRefs + n && kobj == n
    {
      CountInStep(links, 0, j);
      if j in links && found {
        // cpufreq_cpu_get(cpu) finds the policy `cpu` is mapped to
        refs, kobj := refs + 1, kobj + 1;
      }
      j := j + 1;
    }
    if found {
      var got := c.cpuData[cpu];
      r := c.(driverRefs := refs, policies := c.policies[got := c.policies[got].(kobjRefs := c.policies[got].kobjRefs + kobj)]);
    } else {
      r := c;
    }
  }

  /** cpufreq_add_dev_interface(cpu, policy `id`). */
  method Interface(c: Core, env: Env, nr: nat, cpu: CpuId, id: PolicyId) returns (ret: int, r: Core)
    requires Inv(c) && EnvOk(env, nr) && c.driver.Some? && id in c.policies && c.policies[id].cpu == cpu
    ensures (ret, r) == DevInterface(c, env, nr, cpu, id)
  {
    var c0 := Bind(c, env, nr, id);
    var c1 := Symlinks(c0, env, nr, cpu, id);
    var data := c1.policies[id];
    // the governor is cleared so that __cpufreq_set_policy runs the start sequence
    var o := SetPolicyOn(env, c.driver.value, id, data.(governor := None), c1.govRefs, data);
    ret := o.ret;
    r := Applied(c1, id, o, o.ret != 0 && c.driver.value.hasExit);
  }

  /** cpufreq_add_dev after cpufreq_add_dev_policy answered 0. */
  method Finish(c: Core, env: Env, nr: nat, cpu: CpuId, id: PolicyId, live: set<PolicyId>) returns (ret: int, r: Core)
    requires Inv(c) && EnvOk(env, nr) && c.driver.Some? && id in c.policies && c.policies[id].cpu == cpu && live <= c.live
    ensures (ret, r) == AddSpec.Finish(c, env, nr, cpu, id, live)
  {
    DevInterfaceKeeps(c, env, nr, cpu, id);
    ret, r := Interface(c, env, nr, cpu, id);
    if ret != 0 {
      var data := Drop(r.cpuData, r.policies[id].cpus, nr);
      r := r.(cpuData := data, live := live);
    }
  }

  /** cpufreq_add_dev after a successful `init`. */
  method Setup(c: Core, env: Env, nr: nat, cpu: CpuId, id: PolicyId, live: set<PolicyId>) returns (ret: int, r: Core)
    requires Inv(c) && EnvOk(env, nr) && c.driver.Some? && id in c.policies && c.policies[id].cpu == cpu && live <= c.live
    ensures (ret, r) == AddSpec.Setup(c, env, nr, cpu, id, live)
  {
    DevPolicyKeeps(c, env, nr, cpu, id);
    ret, r := AddDevPolicy(c, env, nr, cpu, id);
    if ret != 0 {
      // a CPU that joined an existing policy is done
      return 0, r.(live := live);
    }
    ret, r := Finish(r, env, nr, cpu, id, live);
  }

  /** cpufreq_add_dev from the allocation of the policy. */
  method Fresh(c: Core, env: Env, nr: nat, cpu: CpuId, p0: Policy) returns (ret: int, r: Core)
    requires Inv(c) && EnvOk(env, nr) && c.driver.Some? && p0.cpu == cpu
    ensures (ret, r) == AddSpec.Fresh(c, env, nr, cpu, p0)
  {
    var ir := env.init(cpu, p0);
    if ir.ret != 0 {
      return ir.ret, Installed(c, cpu, p0).(live := c.live);
    }
    ret, r := Setup(Installed(c, cpu, Initialised(p0, ir, env.online)), env, nr, cpu, c.nextId, c.live);
  }

  /** cpufreq_add_dev(cpu). */
  method AddDev(c: Core, env: Env, nr: nat, cpu: CpuId) returns (ret: int, r: Core)
    requires Inv(c) && c.driver.Some? && EnvOk(env, nr) && cpu < nr
    ensures (ret, r) == AddSpec.AddDev(c, env, nr, cpu)
  {
    if cpu !in env.online {
      return 0, c;
    }
    if env.driverModuleOk && cpu in c.cpuData {
      // cpufreq_cpu_get(cpu) found a policy: put it back, nothing to do
      return 0, c;
    }
    if !env.driverModuleOk {
      return -EINVAL, c;
    }
    var s := ScanSibling(c, env, nr, cpu);
    var gov := if s < nr then c.policies[c.cpuData[s]].governor else Some(env.defaultGovernor);
    var p0 := Policy(cpu, {cpu}, {}, CpuInfo(0, 0, 0), 0, 0, 0, NoMode, gov, UserPolicy(0, 0, NoMode, None), 0, 0);
    assert p0 == Provisional(c, env, nr, cpu);
    ret, r := Fresh(c, env, nr, cpu, p0);
  }

  /** The branch of __cpufreq_remove_dev for a CPU that does not own its policy. */
  method Unlink(c: Core, env: Env, cpu: CpuId, id: PolicyId) returns (r: Core)
    requires Inv(c) && c.driver.Some? && id in c.policies
    ensures r == Unlinked(c, env, cpu, id)
  {
    var c0 := c.(cpuData := c.cpuData - {cpu});
    assert c0 == Unmapped(c, {cpu});
    var o := RestartOn(env, id, c0.policies[id], c0.govRefs, c0.policies[id].cpus - {cpu});
    r := CpuPut(WithGov(c0, id, o), id, false);
  }

  /** The per-CPU part of the owner's bookkeeping in __cpufreq_remove_dev:
      `cpu` is unbound and its snapshot saved; when the mask has other CPUs
      (`others`), a first loop unbinds them and a second saves the snapshot
      for each and counts the references put. */
  method Bookkeep(data: map<CpuId, PolicyId>, save: map<CpuId, Snapshot>, nr: nat, cpu: CpuId,
                  others: set<CpuId>, multi: bool, v: Snapshot)
      returns (d: map<CpuId, PolicyId>, s: map<CpuId, Snapshot>, n: nat)
    requires multi || others == {}
    requires forall j :: j in others ==> j < nr
    ensures d == data - (others + {cpu}) && s == Overwrite(save, others + {cpu}, v)
    ensures n == CountIn(others, 0, nr)
  {
    d, s, n := data - {cpu}, save[cpu := v], 0;
    if multi {
      assert Below(others, nr) == others;
      d := Drop(d, others, nr);
      s, n := SaveAll(s, others, nr, v);
    }
    SaveFirst(save, others, cpu, v);
  }

  /** The owner's bookkeeping in __cpufreq_remove_dev. */
  method Release(c: Core, nr: nat, cpu: CpuId, id: PolicyId, multi: bool) returns (r: Core)
    requires Inv(c) && id in c.policies && multi == (CountIn(c.policies[id].cpus, 0, nr) > 1)
    ensures r == Released(c, nr, cpu, id)
  {
    var data := c.policies[id];
    var others := Others(data, nr, cpu);
    var cpuData, save, n := Bookkeep(c.cpuData, c.save, nr, cpu, others, multi, Saved(data));
    r := c.(cpuData := cpuData, save := save, driverRefs := c.driverRefs - n,
            policies := c.policies[id := data.(kobjRefs := data.kobjRefs - n)]);
  }

  lemma SaveFirst(m: map<CpuId, Snapshot>, b: set<CpuId>, cpu: CpuId, v: Snapshot)
    ensures Overwrite(m[cpu := v], b, v) == Overwrite(m, b + {cpu}, v)
  {
    OverwriteStep(m, b, cpu, v);
  }

  /** The owner's STOP, for a `target` driver, and the driver's `exit`. */
  method Stop(c: Core, env: Env, id: PolicyId) returns (r: Core)
    requires Inv(c) && c.driver.Some? && id in c.policies
    ensures r == Stopped(c, env, id)
  {
    var st := GovOut(0, c.policies[id], c.govRefs, []);
    if c.driver.value.hasTarget {
      st := CallGovernor(env, id, c.policies[id], c.govRefs, GovStop);
    }
    r := WithGov(c, id, st);
    if c.driver.value.hasExit {
      r := r.(trace := r.trace + [DriverExit(id)]);
    } else {
      assert r.trace == r.trace + [];
    }
  }

  /** __cpufreq_remove_dev(cpu). */
  method RemoveDev(c: Core, env: Env, nr: nat, cpu: CpuId) returns (ret: int, r: Core)
    requires Inv(c) && c.driver.Some? && EnvOk(env, nr) && cpu < nr
    ensures (ret, r) == RemoveSpec.RemoveDev(c, env, nr, cpu)
    decreases Owns(c, cpu)
  {
    if cpu !in c.cpuData {
      return -EINVAL, c;
    }
    var id := c.cpuData[cpu];
    if c.policies[id].cpu != cpu {
      r := Unlink(c, env, cpu, id);
      return 0, r;
    }
    var cpus := c.policies[id].cpus;
    var w := Weight(cpus, nr);
    r := Release(c, nr, cpu, id, w > 1);
    r := Stop(r, env, id);
    if w > 1 {
      // the first sibling now owns the policy; then `cpu` is removed again
      r := r.(policies := r.policies[id := r.policies[id].(cpus := r.policies[id].cpus - {cpu})]);
      assert r == Handover(c, env, nr, cpu, id);
      FirstOther(cpus, nr, cpu);
      var first := First(cpus - {cpu}, nr);
      ReaddKeeps(c, env, nr, cpu);
      var _, a := AddDev(r, env, nr, first);
      assert a == Readd(c, env, nr, cpu);
      var _, rm := RemoveDev(a, env, nr, cpu);
      r := rm;
    }
    r := r.(live := r.live - {id});
    ret := 0;
  }

  /** cpufreq_remove_dev(cpu). */
  method RemoveCpu(c: Core, env: Env, nr: nat, cpu: CpuId) returns (ret: int, r: Core)
    requires Inv(c) && c.driver.Some? && EnvOk(env, nr) && cpu < nr
    ensures (ret, r) == RemoveSpec.RemoveCpu(c, env, nr, cpu)
  {
    if cpu !in env.online {
      return 0, c;
    }
    ret, r := RemoveDev(c, env, nr, cpu);
  }
}
