/** The Ornstein-Uhlenbeck exploration noise of the trainer
    (`OrnsteinUhlenbeckProcessNoise`). The standard-normal draw of each call
    is a parameter. As the code is written, `get_noise` returns the next
    point of the recurrence but never stores it, so the state stays the
    zero vector it starts as and every sample is independent of the last. */
module Noise {
  import opened Tensors

  /** One step of the recurrence from state `x`:
      `x + theta * (mu - x) + sigma * eps`, element by element. */
  function OUStep(x: Vector, theta: real, sigma: real, mu: real, eps: Vector): (r: Vector)
    requires |eps| == |x|
    ensures |r| == |x|
  {
    seq(|x|, j requires 0 <= j < |x| => x[j] + (theta * (mu - x[j]) + sigma * eps[j]))
  }

  /** With no random kick the step pulls every element towards `mu`, shrinking
      its distance from `mu` by the factor `1 - theta`. */
  lemma OUStepMeanReverting(x: Vector, theta: real, sigma: real, mu: real)
    ensures forall j :: 0 <= j < |x| ==>
              OUStep(x, theta, sigma, mu, Zeros(|x|))[j] - mu == (1.0 - theta) * (x[j] - mu)
  {
  }

  /** From the zero state the step is the constant `theta * mu` plus the scaled draw. */
  lemma OUStepFromZero(theta: real, sigma: real, mu: real, eps: Vector)
    ensures forall j :: 0 <= j < |eps| ==>
              OUStep(Zeros(|eps|), theta, sigma, mu, eps)[j] == theta * mu + sigma * eps[j]
  {
  }

  class OUNoise {
    const actionDim: nat
    const theta: real
    const sigma: real
    const mu: real
    var noise: Vector

    /** The object invariant: nothing ever stores a step, so the state is
        always the zero vector of length `actionDim`. */
    ghost predicate Valid()
      reads this
    {
      noise == Zeros(actionDim)
    }

    constructor (actionDim: nat, theta: real := 0.15, sigma: real := 0.02, mu: real := 0.0)
      ensures Valid()
      ensures this.actionDim == actionDim && this.theta == theta && this.sigma == sigma && this.mu == mu
      ensures noise == Zeros(actionDim)
    {
      this.actionDim := actionDim;
      this.theta := theta;
      this.sigma := sigma;
      this.mu := mu;
      noise := Zeros(actionDim);
    }

    /** `get_noise`: the next point of the recurrence, which is returned and
        not stored. Since the state is zero, the sample depends on this
        call's draw alone. */
    method GetNoise(eps: Vector) returns (r: Vector)
      requires Valid() && |eps| == actionDim
      ensures r == OUStep(noise, theta, sigma, mu, eps)
      ensures forall j :: 0 <= j < actionDim ==> r[j] == theta * mu + sigma * eps[j]
    {
      var prev := noise;
      var dx := seq(actionDim, j requires 0 <= j < actionDim => theta * (mu - prev[j]) + sigma * eps[j]);
      r := AddVec(prev, dx);
      OUStepFromZero(theta, sigma, mu, eps);
    }

    /** `clear`: the state becomes the zero vector again. */
    method Clear()
      requires Valid()
      modifies this
      ensures Valid() && noise == Zeros(actionDim)
    {
      noise := Zeros(actionDim);
    }
  }
}
