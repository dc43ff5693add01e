/** The PM-QoS clamp at the head of __cpufreq_set_policy. */
module PolicyLimits {
  import opened CpufreqTypes

  datatype Bounds = Bounds(min: nat, max: nat)

  function Min(a: nat, b: nat): nat { if a <= b then a else b }
  function Max(a: nat, b: nat): nat { if a >= b then a else b }

  /** The request [pmin, pmax] clamped to the QoS floor and ceiling, where the
      floor never exceeds the user maximum and the ceiling never falls below
      the user minimum. The clamped request conflicts with the user bounds
      exactly when the unclamped one did. */
  function Clamp(pmin: nat, pmax: nat, qosMin: nat, qosMax: nat, user: UserPolicy): (b: Bounds)
    ensures pmin <= b.min && b.max <= pmax
    ensures Min(qosMin, user.max) <= b.min && b.max <= Max(qosMax, user.min)
    ensures b.min == pmin || b.min <= user.max
    ensures b.max == pmax || b.max >= user.min
    ensures (b.min > user.max || b.max < user.min) <==> (pmin > user.max || pmax < user.min)
  {
    var qmin := Min(qosMin, user.max);
    var qmax := Max(qosMax, user.min);
    Bounds(Max(pmin, qmin), Min(pmax, qmax))
  }

  /** A request inside the user bounds keeps the QoS floor and ceiling wherever
      they themselves lie inside the user bounds. */
  lemma ClampHonoursQos(pmin: nat, pmax: nat, qosMin: nat, qosMax: nat, user: UserPolicy)
    requires user.min <= qosMin <= user.max && user.min <= qosMax <= user.max
    ensures Clamp(pmin, pmax, qosMin, qosMax, user).min == Max(pmin, qosMin)
    ensures Clamp(pmin, pmax, qosMin, qosMax, user).max == Min(pmax, qosMax)
  {
  }
}
