/** Specification of the frequency-transition protocol: cpufreq_notify_transition,
    cpufreq_out_of_sync and __cpufreq_get. */
module TransitionSpec {
  import opened CpufreqTypes

  /** The policy that `cpufreq_cpu_data` maps `cpu` to and that `cpu` owns. */
  predicate OwnedBy(c: Core, cpu: CpuId)
    requires Inv(c)
  {
    cpu in c.cpuData && c.policies[c.cpuData[cpu]].cpu == cpu
  }

  /** cpufreq_notify_transition(freqs, state). The driver's flags are copied
      into `freqs`. On PRECHANGE a driver without CONST_LOOPS has `old`
      corrected to the owning policy's nonzero `cur`; on POSTCHANGE the owning
      policy's `cur` becomes `new`. The transition notifiers see the result. */
  function NotifyTransition(c: Core, freqs: Freqs, state: TransitionState): (r: (Freqs, Core))
    requires Inv(c) && c.driver.Some?
    ensures Inv(r.1) && Evolves(c, r.1)
    ensures r.0.cpu == freqs.cpu && r.0.newFreq == freqs.newFreq && r.0.flags == c.driver.value.flags
    // PRECHANGE rewrites `old` exactly when the core knows better
    ensures state == PreChange ==>
              var fix := ConstLoops !in c.driver.value.flags && OwnedBy(c, freqs.cpu) &&
                         c.policies[c.cpuData[freqs.cpu]].cur != 0 &&
                         c.policies[c.cpuData[freqs.cpu]].cur != freqs.oldFreq;
              r.0.oldFreq == (if fix then c.policies[c.cpuData[freqs.cpu]].cur else freqs.oldFreq)
    ensures state != PreChange ==> r.0.oldFreq == freqs.oldFreq
    // only POSTCHANGE on the owner touches a policy, and only its `cur`
    ensures state == PostChange && OwnedBy(c, freqs.cpu) ==>
              r.1.policies == c.policies[c.cpuData[freqs.cpu] := c.policies[c.cpuData[freqs.cpu]].(cur := freqs.newFreq)]
    ensures !(state == PostChange && OwnedBy(c, freqs.cpu)) ==> r.1.policies == c.policies
    ensures r.1 == c.(policies := r.1.policies, trace := r.1.trace)
    ensures state == PreChange || state == PostChange ==> r.1.trace == c.trace + [Transition(state, r.0)]
    ensures !(state == PreChange || state == PostChange) ==> r.1.trace == c.trace
  {
    var f := freqs.(flags := c.driver.value.flags);
    var owned := OwnedBy(c, f.cpu);
    match state
    case PreChange =>
      var f' := if ConstLoops !in c.driver.value.flags && owned &&
                   c.policies[c.cpuData[f.cpu]].cur != 0 && c.policies[c.cpuData[f.cpu]].cur != f.oldFreq
                then f.(oldFreq := c.policies[c.cpuData[f.cpu]].cur) else f;
      (f', c.(trace := c.trace + [Transition(PreChange, f')]))
    case PostChange =>
      var c' := if owned then
                  var id := c.cpuData[f.cpu];
                  c.(policies := c.policies[id := c.policies[id].(cur := f.newFreq)])
                else c;
      (f, c'.(trace := c.trace + [Transition(PostChange, f)]))
    case _ => (f, c)
  }

  /** cpufreq_out_of_sync(cpu, old, new): a PRECHANGE/POSTCHANGE pair. */
  function OutOfSync(c: Core, cpu: CpuId, oldFreq: nat, newFreq: nat): (r: Core)
    requires Inv(c) && c.driver.Some?
    ensures Inv(r) && Evolves(c, r)
    ensures r == c.(policies := r.policies, trace := r.trace)
    ensures |r.trace| == |c.trace| + 2 && r.trace[..|c.trace|] == c.trace
    ensures r.trace[|c.trace|].Transition? && r.trace[|c.trace|].state == PreChange
    ensures r.trace[|c.trace| + 1].Transition? && r.trace[|c.trace| + 1].state == PostChange
    ensures r.trace[|c.trace| + 1].freqs.newFreq == newFreq && r.trace[|c.trace| + 1].freqs.cpu == cpu
    // the owner's `cur` ends at `newFreq`; nothing else in any policy changes
    ensures OwnedBy(c, cpu) ==>
              r.policies == c.policies[c.cpuData[cpu] := c.policies[c.cpuData[cpu]].(cur := newFreq)]
    ensures !OwnedBy(c, cpu) ==> r.policies == c.policies
  {
    var pre := NotifyTransition(c, Freqs(cpu, oldFreq, newFreq, {}), PreChange);
    NotifyTransition(pre.1, pre.0, PostChange).1
  }

  /** Reading out_of_sync with the core's own `cur` as `old`: the PRECHANGE
      notifiers see exactly `old = cur`, `new = queried`, whatever the flags. */
  lemma OutOfSyncReportsCur(c: Core, cpu: CpuId, queried: nat)
    requires Inv(c) && c.driver.Some? && cpu in c.cpuData
    ensures var r := OutOfSync(c, cpu, c.policies[c.cpuData[cpu]].cur, queried);
            r.trace[|c.trace|].freqs.oldFreq == c.policies[c.cpuData[cpu]].cur &&
            r.trace[|c.trace|].freqs.newFreq == queried &&
            r.trace[|c.trace| + 1].freqs.oldFreq == c.policies[c.cpuData[cpu]].cur
  {
  }

  /** The repair __cpufreq_get performs: the driver reports a nonzero
      frequency, the core has a nonzero and different `cur`, and the driver
      does not have CONST_LOOPS. */
  predicate Desynced(c: Core, env: Env, cpu: CpuId)
    requires Inv(c) && c.driver.Some? && cpu in c.cpuData
  {
    c.driver.value.hasGet && env.get(cpu) != 0 && c.policies[c.cpuData[cpu]].cur != 0 &&
    ConstLoops !in c.driver.value.flags && env.get(cpu) != c.policies[c.cpuData[cpu]].cur
  }

  /** __cpufreq_get(cpu): 0 without a `get` callback, otherwise what the driver
      reports, repairing a desynchronised `cur` and scheduling a policy update. */
  function Get(c: Core, env: Env, cpu: CpuId): (r: (nat, Core))
    requires Inv(c) && c.driver.Some? && cpu in c.cpuData
    ensures Inv(r.1) && Evolves(c, r.1)
    ensures r.0 == if c.driver.value.hasGet then env.get(cpu) else 0
    ensures !Desynced(c, env, cpu) ==> r.1 == c
    ensures Desynced(c, env, cpu) ==>
              && r.1 == c.(policies := r.1.policies, trace := r.1.trace)
              && |r.1.trace| == |c.trace| + 3 && r.1.trace[..|c.trace|] == c.trace
              && r.1.trace[|c.trace|] == Transition(PreChange, Freqs(cpu, c.policies[c.cpuData[cpu]].cur, r.0, c.driver.value.flags))
              && r.1.trace[|c.trace| + 1] == Transition(PostChange, Freqs(cpu, c.policies[c.cpuData[cpu]].cur, r.0, c.driver.value.flags))
              && r.1.trace[|c.trace| + 2] == UpdateScheduled(c.cpuData[cpu])
    ensures Desynced(c, env, cpu) && OwnedBy(c, cpu) ==> r.1.policies[c.cpuData[cpu]].cur == r.0
    ensures Desynced(c, env, cpu) && !OwnedBy(c, cpu) ==> r.1.policies == c.policies
  {
    if !c.driver.value.hasGet then (0, c)
    else
      var q := env.get(cpu);
      if Desynced(c, env, cpu) then
        var s := OutOfSync(c, cpu, c.policies[c.cpuData[cpu]].cur, q);
        (q, s.(trace := s.trace + [UpdateScheduled(c.cpuData[cpu])]))
      else (q, c)
  }
}
