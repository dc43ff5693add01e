/** Data model of the cpufreq core: policies, governors, the driver slot,
    the per-CPU tables and the external collaborators the core calls through. */
module CpufreqTypes {

  datatype Option<T> = None | Some(value: T)

  type CpuId = nat
  type PolicyId = nat

  /** Error numbers; the core returns their negations. */
  const EBUSY: int := 16
  const EFAULT: int := 14
  const ENODEV: int := 19
  const EINVAL: int := 22

  /** CPUFREQ_NAME_LEN: governor names are compared over at most this many characters. */
  const NAME_LEN: nat := 16

  datatype DriverFlag = ConstLoops | Sticky

  /** The platform driver. `handle` stands for the driver structure's address,
      which is what the core compares when a driver is unregistered. */
  datatype Driver = Driver(
    handle: nat,
    name: string,
    flags: set<DriverFlag>,
    hasVerify: bool,
    hasInit: bool,
    hasSetpolicy: bool,
    hasTarget: bool,
    hasGet: bool,
    hasExit: bool)

  /** A registered governor; its callback lives in `Env.governorResult`. */
  datatype Governor = Governor(name: string, maxTransitionLatency: nat)

  datatype GovEvent = GovStart | GovStop | GovLimits

  /** CPUFREQ_POLICY_POWERSAVE / CPUFREQ_POLICY_PERFORMANCE, or neither (0). */
  datatype PolicyMode = NoMode | Powersave | Performance

  datatype CpuInfo = CpuInfo(minFreq: nat, maxFreq: nat, transitionLatency: nat)

  datatype UserPolicy = UserPolicy(min: nat, max: nat, mode: PolicyMode, governor: Option<Governor>)

  /** struct cpufreq_policy. `cpu` is the owning CPU; `kobjRefs` counts the
      references taken by cpufreq_cpu_get and not yet dropped. */
  datatype Policy = Policy(
    cpu: CpuId,
    cpus: set<CpuId>,
    relatedCpus: set<CpuId>,
    cpuinfo: CpuInfo,
    min: nat,
    max: nat,
    cur: nat,
    mode: PolicyMode,
    governor: Option<Governor>,
    user: UserPolicy,
    util: nat,
    kobjRefs: int)

  /** The per-CPU saved {governor name, user min, user max}; all-zero until first saved. */
  datatype Snapshot = Snapshot(gov: string, min: nat, max: nat)

  const EmptySnapshot: Snapshot := Snapshot("", 0, 0)

  datatype TransitionState = PreChange | PostChange | ResumeChange | SuspendChange

  datatype Freqs = Freqs(cpu: CpuId, oldFreq: nat, newFreq: nat, flags: set<DriverFlag>)

  /** What the core asked of its collaborators, in order. */
  datatype Event =
    | Transition(state: TransitionState, freqs: Freqs)
    | GovernorInvoked(policy: PolicyId, governor: string, event: GovEvent, result: int)
    | DriverExit(policy: PolicyId)
    | DriverSetpolicy(policy: PolicyId, min: nat, max: nat)
    | DriverTarget(policy: PolicyId, freq: nat, relation: nat)
    | UpdateScheduled(policy: PolicyId)

  /** What the driver's `init` fills in; `ret != 0` is a failure. */
  datatype InitResult = InitResult(
    ret: int,
    cpus: set<CpuId>,
    relatedCpus: set<CpuId>,
    cpuinfo: CpuInfo,
    min: nat,
    max: nat,
    cur: nat,
    mode: PolicyMode)

  /** A `verify` call: its return code and the candidate as verify left it. */
  datatype Checked = Checked(ret: int, policy: Policy)

  /** Everything outside the core: the online mask, the PM-QoS requests,
      compile-time governors, and the driver and governor callbacks. */
  datatype Env = Env(
    online: set<CpuId>,
    qosMin: nat,
    qosMax: nat,
    defaultGovernor: Governor,
    fallback: Option<Governor>,
    driverModuleOk: bool,
    governorModuleOk: string -> bool,
    governorResult: (string, GovEvent) -> int,
    init: (CpuId, Policy) -> InitResult,
    verify: Policy -> Checked,
    adjust: Policy -> Policy,
    setpolicy: Policy -> int,
    target: (Policy, nat, nat) -> int,
    get: CpuId -> nat)

  /** One acquisition of a policy rwsem, keyed by the owning CPU. */
  datatype Hold = Hold(owner: CpuId, write: bool)

  /** The whole state of the core. */
  datatype Core = Core(
    off: bool,
    driver: Option<Driver>,
    governors: seq<Governor>,
    cpuData: map<CpuId, PolicyId>,
    policyCpu: map<CpuId, CpuId>,
    save: map<CpuId, Snapshot>,
    policies: map<PolicyId, Policy>,
    live: set<PolicyId>,
    nextId: PolicyId,
    driverRefs: int,
    govRefs: map<string, int>,
    held: multiset<Hold>,
    trace: seq<Event>)

  /** Only CPUs below nr_cpu_ids are ever online. */
  predicate EnvOk(env: Env, nr: nat) {
    forall c :: c in env.online ==> c < nr
  }

  /** The structural invariant every operation keeps. */
  predicate Inv(c: Core) {
    && (forall x :: x in c.cpuData ==> c.cpuData[x] in c.policies && x in c.policyCpu)
    && (forall i :: i in c.policies ==> i < c.nextId)
    && c.live <= c.policies.Keys
  }

  /** What no lifecycle or policy operation changes: the driver slot, the
      governor list, allocated policies stay allocated and keep their owner. */
  predicate Evolves(c: Core, r: Core) {
    && r.off == c.off
    && r.driver == c.driver
    && r.governors == c.governors
    && c.nextId <= r.nextId
    && c.policies.Keys <= r.policies.Keys
    && (forall i :: i in c.policies ==> r.policies[i].cpu == c.policies[i].cpu)
  }

  lemma EvolvesTrans(a: Core, b: Core, c: Core)
    requires Evolves(a, b) && Evolves(b, c)
    ensures Evolves(a, c)
  {
  }

  function SaveOf(save: map<CpuId, Snapshot>, cpu: CpuId): Snapshot {
    if cpu in save then save[cpu] else EmptySnapshot
  }

  function RefOf(refs: map<string, int>, name: string): int {
    if name in refs then refs[name] else 0
  }

  function GovName(g: Option<Governor>): string {
    if g.Some? then g.value.name else ""
  }

  /** cpumask_weight: how many members of `s` lie in [lo, nr). */
  function CountIn(s: set<CpuId>, lo: nat, nr: nat): (n: nat)
    decreases nr - lo
    ensures n == 0 <==> (forall j :: lo <= j < nr ==> j !in s)
  {
    if lo >= nr then 0
    else (if lo in s then 1 else 0) + CountIn(s, lo + 1, nr)
  }

  /** cpumask_first from `lo`: the least member of `s` in [lo, nr), or nr. */
  function FirstFrom(s: set<CpuId>, lo: nat, nr: nat): (f: nat)
    requires lo <= nr
    decreases nr - lo
    ensures lo <= f <= nr
    ensures f < nr ==> f in s
    ensures forall j :: lo <= j < f ==> j !in s
  {
    if lo >= nr then nr
    else if lo in s then lo
    else FirstFrom(s, lo + 1, nr)
  }

  /** Counting one more position: the count over [lo, hi + 1) adds `hi` to the count over [lo, hi). */
  lemma {:induction false} CountInStep(s: set<CpuId>, lo: nat, hi: nat)
    requires lo <= hi
    ensures CountIn(s, lo, hi + 1) == CountIn(s, lo, hi) + (if hi in s then 1 else 0)
    decreases hi - lo
  {
    if lo < hi {
      CountInStep(s, lo + 1, hi);
    }
  }

  /** A mask with more than one member in [lo, nr) has one there other than `x`. */
  lemma {:induction false} CountInOther(s: set<CpuId>, lo: nat, nr: nat, x: CpuId)
    requires CountIn(s, lo, nr) > 1
    ensures exists j :: lo <= j < nr && j in s && j != x
    decreases nr - lo
  {
    if lo in s && lo != x {
    } else if lo in s {
      assert CountIn(s, lo + 1, nr) > 0;
    } else {
      CountInOther(s, lo + 1, nr, x);
    }
  }

  /** The least member, characterised: whatever index has no member of `s`
      in [lo, f) and is a member or nr, is the one FirstFrom finds. */
  lemma {:induction false} FirstFromIs(s: set<CpuId>, lo: nat, nr: nat, f: nat)
    requires lo <= f <= nr
    requires f < nr ==> f in s
    requires forall j :: lo <= j < f ==> j !in s
    ensures FirstFrom(s, lo, nr) == f
    decreases f - lo
  {
    if lo < f {
      FirstFromIs(s, lo + 1, nr, f);
    }
  }

  /** `m` with every key of `b` mapped to `v` and every other entry kept:
      what a for_each_cpu loop storing one value per CPU leaves behind. */
  function Overwrite<V>(m: map<CpuId, V>, b: set<CpuId>, v: V): (r: map<CpuId, V>)
    ensures forall j :: j in b ==> j in r && r[j] == v
    ensures forall j :: j !in b ==> (j in r <==> j in m) && (j in m ==> r[j] == m[j])
  {
    map j | j in m.Keys + b :: if j in b then v else m[j]
  }

  /** Storing at one more CPU is one more map update. */
  lemma OverwriteStep<V>(m: map<CpuId, V>, b: set<CpuId>, j: CpuId, v: V)
    ensures Overwrite(m, b + {j}, v) == Overwrite(m, b, v)[j := v]
  {
  }
}
