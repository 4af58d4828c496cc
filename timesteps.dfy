/** Timestep sampling for flow-matching training.  The two sampling methods are a
    closed choice; the distributions, the logistic function and the shift warp are
    floating-point numerics, so a timestep is kept as a term that records which steps
    produced it, in order, instead of as a number. */
module Timesteps {
  import opened Wrappers

  datatype SampleMethod = LogitNormal | Uniform

  datatype Distribution = StandardNormal | UnitUniform

  datatype SampleError = UnsupportedSamplingMethod(name: string)

  /** One timestep, as the computation that produces it. */
  datatype Time =
    | Quantile(dist: Distribution, q: real)    // dist.icdf(q)
    | Draw(dist: Distribution, index: nat)     // entry `index` of the independent draws dist.sample((bs,))
    | Scaled(t: Time, factor: real)            // t * factor
    | Sigmoid(t: Time)                         // torch.sigmoid(t)
    | Shifted(t: Time, shift: real)            // (t * shift) / (1 + (shift - 1) * t)

  function Name(m: SampleMethod): string {
    match m
    case LogitNormal => "logit_normal"
    case Uniform => "uniform"
  }

  /** The dispatch on `timestep_sample_method`: the two known names, anything else raises. */
  function ParseMethod(name: string): (r: Result<SampleMethod, SampleError>)
    ensures r.Success? <==> name == "logit_normal" || name == "uniform"
    ensures r.Success? ==> Name(r.value) == name
    ensures r.Failure? ==> r.error == UnsupportedSamplingMethod(name)
  {
    if name == "logit_normal" then Success(LogitNormal)
    else if name == "uniform" then Success(Uniform)
    else Failure(UnsupportedSamplingMethod(name))
  }

  /** Parsing a method's own name gives that method back. */
  lemma ParseName(m: SampleMethod)
    ensures ParseMethod(Name(m)) == Success(m)
  {
  }

  /** `Normal(0, 1)` for logit-normal sampling, `Uniform(0, 1)` otherwise. */
  function DistributionOf(m: SampleMethod): (d: Distribution)
    ensures d == StandardNormal <==> m == LogitNormal
    ensures d == UnitUniform <==> m == Uniform
  {
    match m
    case LogitNormal => StandardNormal
    case Uniform => UnitUniform
  }

  /** The raw value for batch entry i: the inverse CDF at the quantile when one is
      given (the same for every entry), else the entry's own draw. */
  function Raw(m: SampleMethod, quantile: Option<real>, i: nat): (r: Time)
    ensures Origin(r) == r && !HasSigmoid(r) && !HasShift(r)
    ensures r.Quantile? <==> quantile.Some?
    ensures r.Quantile? ==> r.q == quantile.value
    ensures r.Draw? ==> r.index == i
    ensures (r.Quantile? || r.Draw?) && r.dist == (if m == LogitNormal then StandardNormal else UnitUniform)
  {
    if quantile.Some? then Quantile(DistributionOf(m), quantile.value) else Draw(DistributionOf(m), i)
  }

  /** Scaling by `sigmoid_scale` and the logistic squash, on the logit-normal path only. */
  function Squash(m: SampleMethod, t: Time, sigmoidScale: real): (r: Time)
    ensures Origin(r) == Origin(t) && HasShift(r) == HasShift(t)
    ensures HasSigmoid(r) <==> m == LogitNormal || HasSigmoid(t)
    ensures m == LogitNormal ==> r.Sigmoid? && r.t == Scaled(t, sigmoidScale)
    ensures m == Uniform ==> r == t
  {
    if m == LogitNormal then Sigmoid(Scaled(t, sigmoidScale)) else t
  }

  /** `if shift := config.get('shift', None)`: Python's truth test skips the warp both
      when the entry is absent and when it is zero. */
  predicate ShiftEnabled(shift: Option<real>) {
    shift.Some? && shift.value != 0.0
  }

  /** An absent shift and a zero shift are both disabled; any other value is enabled. */
  lemma ShiftEnabledTruthTest(s: real)
    ensures !ShiftEnabled(None) && !ShiftEnabled(Some(0.0))
    ensures s != 0.0 ==> ShiftEnabled(Some(s))
  {
  }

  /** The shift warp, applied only when enabled. */
  function Warp(t: Time, shift: Option<real>): (r: Time)
    ensures Origin(r) == Origin(t) && HasSigmoid(r) == HasSigmoid(t)
    ensures HasShift(r) <==> ShiftEnabled(shift) || HasShift(t)
    ensures !ShiftEnabled(shift) ==> r == t
  {
    if ShiftEnabled(shift) then Shifted(t, shift.value) else t
  }

  /** The `bs` timesteps in [0, 1] that weight the interpolation. */
  function SampleTimesteps(m: SampleMethod, quantile: Option<real>, sigmoidScale: real, shift: Option<real>, bs: nat): (r: seq<Time>)
    ensures |r| == bs
    ensures forall i :: 0 <= i < bs ==> Origin(r[i]) == Raw(m, quantile, i)
    ensures forall i :: 0 <= i < bs ==> (HasSigmoid(r[i]) <==> m == LogitNormal)
    ensures forall i :: 0 <= i < bs ==> (HasShift(r[i]) <==> ShiftEnabled(shift))
  {
    seq(bs, i requires 0 <= i < bs => Warp(Squash(m, Raw(m, quantile, i), sigmoidScale), shift))
  }

  /** The draw or quantile a timestep was computed from. */
  function Origin(t: Time): Time {
    match t
    case Quantile(_, _) => t
    case Draw(_, _) => t
    case Scaled(u, _) => Origin(u)
    case Sigmoid(u) => Origin(u)
    case Shifted(u, _) => Origin(u)
  }

  predicate HasSigmoid(t: Time) {
    match t
    case Quantile(_, _) => false
    case Draw(_, _) => false
    case Scaled(u, _) => HasSigmoid(u)
    case Sigmoid(_) => true
    case Shifted(u, _) => HasSigmoid(u)
  }

  predicate HasShift(t: Time) {
    match t
    case Quantile(_, _) => false
    case Draw(_, _) => false
    case Scaled(u, _) => HasShift(u)
    case Sigmoid(u) => HasShift(u)
    case Shifted(_, _) => true
  }

  /** With a quantile the timesteps are deterministic: every entry is the same value,
      and the value does not depend on the batch size. */
  lemma QuantileDeterministic(m: SampleMethod, q: real, sigmoidScale: real, shift: Option<real>, bs: nat, bs': nat, i: nat, j: nat)
    requires i < bs && j < bs'
    ensures SampleTimesteps(m, Some(q), sigmoidScale, shift, bs)[i] == SampleTimesteps(m, Some(q), sigmoidScale, shift, bs')[j]
  {
  }

  /** Without a quantile, distinct entries come from distinct draws. */
  lemma DrawsIndependent(m: SampleMethod, sigmoidScale: real, shift: Option<real>, bs: nat, i: nat, j: nat)
    requires i < bs && j < bs && i != j
    ensures SampleTimesteps(m, None, sigmoidScale, shift, bs)[i] != SampleTimesteps(m, None, sigmoidScale, shift, bs)[j]
  {
  }

  /** The sampling order: the raw value, then scale and sigmoid (logit-normal only),
      then the shift (when enabled), for every method and shift setting. */
  lemma SamplingOrder(m: SampleMethod, quantile: Option<real>, sigmoidScale: real, shift: Option<real>, bs: nat, i: nat)
    requires i < bs
    ensures var raw := Raw(m, quantile, i);
      SampleTimesteps(m, quantile, sigmoidScale, shift, bs)[i] ==
        match (m, ShiftEnabled(shift))
        case (LogitNormal, true) => Shifted(Sigmoid(Scaled(raw, sigmoidScale)), shift.value)
        case (LogitNormal, false) => Sigmoid(Scaled(raw, sigmoidScale))
        case (Uniform, true) => Shifted(raw, shift.value)
        case (Uniform, false) => raw
  {
  }
}
