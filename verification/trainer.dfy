/** The DDPG trainer (`DDPGTrainer`): construction with its configuration
    checks, the critic's Bellman targets and loss, the soft update of the
    target networks, and the post-processing of predicted actions. The
    gradient computation is not modelled: the parameters an optimizer step
    produces are inputs. */
module Trainer {
  import opened Outcomes
  import opened Tensors
  import opened Networks
  import opened Noise

  // ---------------------------------------------------------------------
  // Bellman targets and losses
  // ---------------------------------------------------------------------

  /** The per-sample fields of a training batch that the critic's targets use. */
  datatype Batch = Batch(rewards: seq<real>, terminal: seq<bool>, timeDiffs: seq<nat>)

  /** Every per-sample field has `n` entries. */
  predicate Aligned(b: Batch, n: nat)
  {
    |b.rewards| == n && |b.terminal| == n && |b.timeDiffs| == n
  }

  /** `1 - done` for one sample. */
  function NotDone(terminal: bool): real
  {
    if terminal then 0.0 else 1.0
  }

  /** `rewards + gamma ** time_diffs * (not_done_mask * q_next)`: a terminal
      sample's target is its reward alone; any other sample's target adds the
      next state's value discounted once per elapsed step. */
  function BellmanTargets(gamma: real, b: Batch, qNext: seq<real>): (y: seq<real>)
    requires Aligned(b, |qNext|)
    ensures |y| == |qNext|
    ensures forall i :: 0 <= i < |y| && b.terminal[i] ==> y[i] == b.rewards[i]
    ensures forall i :: 0 <= i < |y| && !b.terminal[i] ==>
              y[i] == b.rewards[i] + Pow(gamma, b.timeDiffs[i]) * qNext[i]
  {
    seq(|qNext|, i requires 0 <= i < |qNext| =>
      b.rewards[i] + Pow(gamma, b.timeDiffs[i]) * (NotDone(b.terminal[i]) * qNext[i]))
  }

  /** With a discount factor in [0, 1], a target never differs from its
      reward by more than the magnitude of the next state's value. */
  lemma BellmanTargetBound(gamma: real, b: Batch, qNext: seq<real>, i: nat)
    requires Aligned(b, |qNext|) && i < |qNext|
    requires 0.0 <= gamma <= 1.0
    ensures Abs(BellmanTargets(gamma, b, qNext)[i] - b.rewards[i]) <= Abs(qNext[i])
  {
    var y := BellmanTargets(gamma, b, qNext);
    if !b.terminal[i] {
      var p := Pow(gamma, b.timeDiffs[i]);
      PowUnitInterval(gamma, b.timeDiffs[i]);
      ScaleBound(qNext[i], p);
      assert y[i] - b.rewards[i] == qNext[i] * p;
    }
  }

  /** The discount for k elapsed steps is gamma multiplied k times, checked
      for k = 1, 2 and 5. */
  lemma DiscountPowers(gamma: real)
    ensures Pow(gamma, 1) == gamma
    ensures Pow(gamma, 2) == gamma * gamma
    ensures Pow(gamma, 5) == gamma * gamma * gamma * gamma * gamma
  {
    assert Pow(gamma, 1) == gamma * Pow(gamma, 0);
    assert Pow(gamma, 2) == gamma * Pow(gamma, 1);
    assert Pow(gamma, 3) == gamma * Pow(gamma, 2);
    assert Pow(gamma, 4) == gamma * Pow(gamma, 3);
    assert Pow(gamma, 5) == gamma * Pow(gamma, 4);
  }

  /** Element-wise differences `pred - target`. */
  function Diffs(pred: seq<real>, target: seq<real>): (d: seq<real>)
    requires |pred| == |target|
    ensures |d| == |pred| && forall i :: 0 <= i < |d| ==> d[i] == pred[i] - target[i]
  {
    seq(|pred|, i requires 0 <= i < |pred| => pred[i] - target[i])
  }

  /** `F.mse_loss`: the mean of the squared differences. An empty batch has no
      mean (the library returns NaN), modelled as `None`. */
  function MseLoss(pred: seq<real>, target: seq<real>): (l: Option<real>)
    requires |pred| == |target|
    ensures l.None? <==> pred == []
    ensures l.Some? ==> l.value >= 0.0
    ensures pred != [] && pred == target ==> l == Some(0.0)
  {
    if pred == [] then None
    else
      var d := Diffs(pred, target);
      SumSquaresNonNegative(d);
      if pred == target then SumSquaresOfZeros(d); Some(SumSquares(d) / (|pred| as real))
      else Some(SumSquares(d) / (|pred| as real))
  }

  /** The loss of a one-sample batch is the square of its one difference. */
  lemma MseOfOne(p: real, t: real)
    ensures MseLoss([p], [t]) == Some(Square(p - t))
  {
    var d := Diffs([p], [t]);
    assert d == [p - t];
    assert d[1..] == [];
    assert SumSquares(d) == Square(p - t);
  }

  /** The critic's loss formula for a one-sample batch holding a
      non-terminal sample with gamma = 0.9, time_diff = 1 and reward 1.0,
      given the two Q values: `(Q_live - (1.0 + 0.9 * Q_target)) ** 2`.
      (The layers' one-row failure is not modelled; see `Kernels`.) */
  lemma SingleSampleLoss(qLive: real, qTarget: real)
    ensures MseLoss([qLive], BellmanTargets(0.9, Batch([1.0], [false], [1]), [qTarget]))
            == Some((qLive - (1.0 + 0.9 * qTarget)) * (qLive - (1.0 + 0.9 * qTarget)))
  {
    assert Pow(0.9, 1) == 0.9;
    var t := 1.0 + 0.9 * qTarget;
    var y := BellmanTargets(0.9, Batch([1.0], [false], [1]), [qTarget]);
    assert |y| == 1 && y[0] == t;
    assert y == [t];
    MseOfOne(qLive, t);
    assert Square(qLive - t) == (qLive - t) * (qLive - t);
    assert (qLive - t) * (qLive - t) == (qLive - (1.0 + 0.9 * qTarget)) * (qLive - (1.0 + 0.9 * qTarget));
  }

  /** `-critic(states, actor(states)).sum()` given the critic's values. */
  function ActorLoss(q: seq<real>): real
  {
    -Sum(q)
  }

  /** Minimising the actor's loss maximises the critic's values: a batch
      whose values are higher everywhere has a loss no larger. */
  lemma ActorLossAntitone(lower: seq<real>, higher: seq<real>)
    requires |lower| == |higher|
    requires forall i :: 0 <= i < |lower| ==> lower[i] <= higher[i]
    ensures ActorLoss(higher) <= ActorLoss(lower)
  {
    SumMonotone(lower, higher);
  }

  // ---------------------------------------------------------------------
  // Soft (Polyak) update of the target networks
  // ---------------------------------------------------------------------

  /** Two parameter lists with the same number of tensors, pairwise of the same size. */
  predicate SameLayout(a: seq<Vector>, b: seq<Vector>)
  {
    |a| == |b| && forall k :: 0 <= k < |a| ==> |a[k]| == |b[k]|
  }

  /** `tau * param + (1 - tau) * t_param` for one tensor. */
  function Blend(tau: real, live: Vector, target: Vector): (r: Vector)
    requires |live| == |target|
    ensures |r| == |target|
    ensures forall j :: 0 <= j < |r| ==> r[j] == tau * live[j] + (1.0 - tau) * target[j]
  {
    seq(|target|, j requires 0 <= j < |target| => tau * live[j] + (1.0 - tau) * target[j])
  }

  /** The blend of every tensor of the target with its live counterpart. */
  function BlendAll(tau: real, live: seq<Vector>, target: seq<Vector>): (r: seq<Vector>)
    requires SameLayout(live, target)
    ensures SameLayout(r, target)
    ensures forall k :: 0 <= k < |r| ==> r[k] == Blend(tau, live[k], target[k])
  {
    seq(|target|, k requires 0 <= k < |target| => Blend(tau, live[k], target[k]))
  }

  /** tau = 1 is a hard copy of the live parameters. */
  lemma BlendAllHardCopy(live: seq<Vector>, target: seq<Vector>)
    requires SameLayout(live, target)
    ensures BlendAll(1.0, live, target) == live
  {
    var r := BlendAll(1.0, live, target);
    forall k | 0 <= k < |r| ensures r[k] == live[k] {
      assert |r[k]| == |live[k]|;
    }
  }

  /** tau = 0 leaves the target unchanged. */
  lemma BlendAllIdle(live: seq<Vector>, target: seq<Vector>)
    requires SameLayout(live, target)
    ensures BlendAll(0.0, live, target) == target
  {
    var r := BlendAll(0.0, live, target);
    forall k | 0 <= k < |r| ensures r[k] == target[k] {
      assert |r[k]| == |target[k]|;
    }
  }

  /** A target equal to the live network stays equal to it, whatever tau. */
  lemma BlendAllFixedPoint(tau: real, p: seq<Vector>)
    ensures SameLayout(p, p) && BlendAll(tau, p, p) == p
  {
    var r := BlendAll(tau, p, p);
    forall k | 0 <= k < |r| ensures r[k] == p[k] {
      assert |r[k]| == |p[k]|;
      forall j | 0 <= j < |p[k]| ensures r[k][j] == p[k][j] {
        assert r[k][j] == tau * p[k][j] + (1.0 - tau) * p[k][j];
      }
    }
  }

  /** For tau in [0, 1] each blended element lies between the live and the old target value. */
  lemma BlendBetween(tau: real, a: real, b: real)
    requires 0.0 <= tau <= 1.0
    ensures var c := tau * a + (1.0 - tau) * b;
            (a <= b ==> a <= c <= b) && (b <= a ==> b <= c <= a)
  {
  }

  /** `n` soft updates towards fixed live parameters. */
  function Repeat(tau: real, live: seq<Vector>, target: seq<Vector>, n: nat): (r: seq<Vector>)
    requires SameLayout(live, target)
    ensures SameLayout(r, target)
  {
    if n == 0 then target else BlendAll(tau, live, Repeat(tau, live, target, n - 1))
  }

  /** One blend multiplies the gap `prev - a` by `1 - tau`. */
  lemma GapStep(tau: real, a: real, prev: real, p: real, q: real, g: real)
    requires prev - a == p * g
    requires q == (1.0 - tau) * p
    ensures tau * a + (1.0 - tau) * prev - a == q * g
  {
  }

  /** The last of `n` soft updates, element by element. */
  lemma RepeatStep(tau: real, live: seq<Vector>, target: seq<Vector>, n: nat, k: nat, j: nat)
    requires SameLayout(live, target)
    requires n > 0 && k < |target| && j < |target[k]|
    ensures Repeat(tau, live, target, n)[k][j]
            == tau * live[k][j] + (1.0 - tau) * Repeat(tau, live, target, n - 1)[k][j]
  {
  }

  /** Each soft update shrinks every gap between target and live by the
      factor `1 - tau`: after `n` updates the gap is `(1 - tau) ** n` times the
      original one. */
  lemma {:induction false} RepeatGap(tau: real, live: seq<Vector>, target: seq<Vector>, n: nat, k: nat, j: nat)
    requires SameLayout(live, target)
    requires k < |target| && j < |target[k]|
    ensures Repeat(tau, live, target, n)[k][j] - live[k][j] == Pow(1.0 - tau, n) * (target[k][j] - live[k][j])
  {
    var g := target[k][j] - live[k][j];
    if n == 0 {
      assert Pow(1.0 - tau, 0) * g == g;
    } else {
      RepeatGap(tau, live, target, n - 1, k, j);
      RepeatStep(tau, live, target, n, k, j);
      GapStep(tau, live[k][j], Repeat(tau, live, target, n - 1)[k][j], Pow(1.0 - tau, n - 1),
              Pow(1.0 - tau, n), g);
    }
  }

  // ---------------------------------------------------------------------
  // Construction
  // ---------------------------------------------------------------------

  /** The exception the constructor raises, if any, in the order the checks
      run: the optimizer name, the actor's schema (an empty list cannot have
      its ends overwritten; a short one fails the network's assertion), then
      the critic's schema. */
  function ConstructionError(optimizer: string, actorLen: nat, criticLen: nat): (e: Option<Error>)
    ensures optimizer != "ADAM" ==> e == Some(NotImplemented(optimizer))
    ensures e.None? <==> optimizer == "ADAM" && actorLen >= 3 && criticLen >= 3
  {
    if optimizer != "ADAM" then Some(NotImplemented(optimizer))
    else if actorLen == 0 then Some(IndexError)
    else if actorLen < 3 then Some(AssertionError)
    else if criticLen == 0 then Some(IndexError)
    else if criticLen < 3 then Some(AssertionError)
    else None
  }

  /** `layers[0] = first; layers[-1] = last` on a non-empty list: on a
      one-element list the second write wins. */
  function WithEnds(layers: seq<nat>, first: nat, last: nat): (r: seq<nat>)
    requires |layers| >= 1
    ensures |r| == |layers| && r[|r| - 1] == last
    ensures |layers| >= 2 ==> r[0] == first
    ensures forall i :: 0 < i < |layers| - 1 ==> r[i] == layers[i]
  {
    layers[0 := first][|layers| - 1 := last]
  }

  /** The output of the trainer's `train` when an evaluator is supplied. */
  datatype Report = Report(episodeValues: seq<real>, predictions: seq<real>, loss: Option<real>)

  /** Python's truthiness of `action_range`: a missing range and a zero
      range alike mean "no range". */
  predicate Truthy(range: Option<real>)
  {
    range.Some? && range.value != 0.0
  }

  /** The final value of one action element: clipped to [-1, 1] and scaled
      when the range is truthy, untouched otherwise. */
  function Finish(range: Option<real>, x: real): real
  {
    if Truthy(range) then range.value * ClipUnit(x) else x
  }

  /** `action_range * np.clip(action, -1, 1)` for every row. */
  function ScaleClip(range: real, m: Matrix): (r: Matrix)
    ensures |r| == |m|
    ensures forall i :: 0 <= i < |r| ==> |r[i]| == |m[i]|
    ensures forall i, j :: 0 <= i < |r| && 0 <= j < |r[i]| ==>
              r[i][j] == range * ClipUnit(m[i][j]) && Abs(r[i][j]) <= Abs(range)
  {
    seq(|m|, i requires 0 <= i < |m| =>
      seq(|m[i]|, j requires 0 <= j < |m[i]| =>
        ScaledClipBound(range, m[i][j]); range * ClipUnit(m[i][j])))
  }

  /** `Finish` on every element of a batch. */
  function FinishAll(range: Option<real>, m: Matrix): (r: Matrix)
    ensures |r| == |m|
    ensures forall i :: 0 <= i < |r| ==> |r[i]| == |m[i]|
    ensures forall i, j :: 0 <= i < |r| && 0 <= j < |r[i]| ==> r[i][j] == Finish(range, m[i][j])
    ensures Truthy(range) ==>
              forall i, j :: 0 <= i < |r| && 0 <= j < |r[i]| ==> Abs(r[i][j]) <= Abs(range.value)
  {
    if Truthy(range) then ScaleClip(range.value, m) else m
  }

  class DDPGTrainer {
    const gamma: real
    const tau: real
    const actionRange: Option<real>
    const stateDim: nat
    const actionDim: nat
    const actor: ActorNet
    const actorTarget: ActorNet
    const critic: CriticNet
    const criticTarget: CriticNet
    const noise: OUNoise

    /** Each target is a separate copy of its live network, with the same
        architecture and activations, and no two networks share parameter
        storage. */
    ghost predicate Valid()
      reads actor.params, actorTarget.params, critic.params, criticTarget.params, noise
    {
      && actor.Valid() && actorTarget.Valid() && critic.Valid() && criticTarget.Valid()
      && actorTarget.shape == actor.shape && criticTarget.shape == critic.shape
      && actorTarget.activations == actor.activations && criticTarget.activations == critic.activations
      && actor.params != actorTarget.params && actor.params != critic.params
      && actor.params != criticTarget.params && actorTarget.params != critic.params
      && actorTarget.params != criticTarget.params && critic.params != criticTarget.params
      && noise.Valid() && noise.actionDim == actionDim
    }

    constructor (gamma: real, tau: real, actionRange: Option<real>, stateDim: nat, actionDim: nat,
                 actor: ActorNet, actorTarget: ActorNet, critic: CriticNet, criticTarget: CriticNet,
                 noise: OUNoise)
      requires actor.Valid() && actorTarget.Valid() && critic.Valid() && criticTarget.Valid()
      requires actorTarget.shape == actor.shape && criticTarget.shape == critic.shape
      requires actorTarget.activations == actor.activations && criticTarget.activations == critic.activations
      requires actor.params != actorTarget.params && actor.params != critic.params
      requires actor.params != criticTarget.params && actorTarget.params != critic.params
      requires actorTarget.params != criticTarget.params && critic.params != criticTarget.params
      requires noise.Valid() && noise.actionDim == actionDim
      ensures Valid()
      ensures this.gamma == gamma && this.tau == tau && this.actionRange == actionRange
      ensures this.stateDim == stateDim && this.actionDim == actionDim
      ensures this.actor == actor && this.actorTarget == actorTarget
      ensures this.critic == critic && this.criticTarget == criticTarget && this.noise == noise
    {
      this.gamma := gamma;
      this.tau := tau;
      this.actionRange := actionRange;
      this.stateDim := stateDim;
      this.actionDim := actionDim;
      this.actor := actor;
      this.actorTarget := actorTarget;
      this.critic := critic;
      this.criticTarget := criticTarget;
      this.noise := noise;
    }

    /** `DDPGTrainer.__init__`. The caller's layer lists are edited in place
        before each network is built; the random initial weights are the
        draws `actorDraw` and `criticDraw`. */
    static method New(optimizer: string, gamma: real, tau: real, flInit: real,
                      stateDim: nat, actionDim: nat, actionRange: Option<real>,
                      actorLayers: array<nat>, actorActivations: seq<string>, actorDraw: (nat, nat) -> real,
                      criticLayers: array<nat>, criticActivations: seq<string>, criticDraw: (nat, nat) -> real)
      returns (r: Result<DDPGTrainer>)
      requires actorLayers != criticLayers
      modifies actorLayers, criticLayers
      ensures (if r.Failure? then Some(r.error) else None)
              == ConstructionError(optimizer, actorLayers.Length, criticLayers.Length)
      ensures actorLayers[..] ==
                if optimizer == "ADAM" && actorLayers.Length >= 1
                then WithEnds(old(actorLayers[..]), stateDim, actionDim)
                else old(actorLayers[..])
      ensures criticLayers[..] ==
                if optimizer == "ADAM" && actorLayers.Length >= 3 && criticLayers.Length >= 1
                then WithEnds(old(criticLayers[..]), stateDim, 1)
                else old(criticLayers[..])
      ensures r.Success? ==>
                var t := r.value;
                && fresh(t) && fresh(t.actor.params) && fresh(t.actorTarget.params)
                && fresh(t.critic.params) && fresh(t.criticTarget.params) && fresh(t.noise)
                && t.Valid()
                && t.gamma == gamma && t.tau == tau && t.actionRange == actionRange
                && t.stateDim == stateDim && t.actionDim == actionDim
                && IsActorShape(t.actor.shape, actorLayers[..], flInit)
                && t.actor.activations == actorActivations
                && IsCriticShape(t.critic.shape, criticLayers[..], actionDim, flInit)
                && t.critic.activations == criticActivations
                && t.actorTarget.params.tensors == t.actor.params.tensors
                && t.criticTarget.params.tensors == t.critic.params.tensors
                && t.noise.noise == Zeros(actionDim)
                && t.noise.theta == 0.15 && t.noise.sigma == 0.02 && t.noise.mu == 0.0
    {
      if optimizer != "ADAM" {
        return Failure(NotImplemented(optimizer));
      }

      if actorLayers.Length == 0 {
        return Failure(IndexError);
      }
      actorLayers[0] := stateDim;
      actorLayers[actorLayers.Length - 1] := actionDim;
      assert actorLayers[..] == WithEnds(old(actorLayers[..]), stateDim, actionDim);
      var noiseGenerator := new OUNoise(actionDim);
      var actorSchema := actorLayers[..];
      var actorBuilt := ActorNet.New(actorSchema, actorActivations, flInit, actorDraw);
      if actorBuilt.Failure? {
        return Failure(actorBuilt.error);
      }
      var actor := actorBuilt.value;
      var actorTarget := actor.Clone();

      if criticLayers.Length == 0 {
        return Failure(IndexError);
      }
      criticLayers[0] := stateDim;
      criticLayers[criticLayers.Length - 1] := 1;
      assert criticLayers[..] == WithEnds(old(criticLayers[..]), stateDim, 1);
      assert actorLayers[..] == actorSchema;
      var criticSchema := criticLayers[..];
      var criticBuilt := CriticNet.New(criticSchema, criticActivations, flInit, actionDim, criticDraw);
      if criticBuilt.Failure? {
        return Failure(criticBuilt.error);
      }
      var critic := criticBuilt.value;
      var criticTarget := critic.Clone();

      var t := new DDPGTrainer(gamma, tau, actionRange, stateDim, actionDim,
                               actor, actorTarget, critic, criticTarget, noiseGenerator);
      return Success(t);
    }

    /** `_soft_update`: every target tensor, in turn, becomes
        `tau * live + (1 - tau) * target`; the live network is only read. */
    method SoftUpdate(network: Parameters, target: Parameters, tau: real)
      requires network != target
      requires SameLayout(network.tensors, target.tensors)
      modifies target
      ensures target.tensors == BlendAll(tau, network.tensors, old(target.tensors))
      ensures forall k, j :: 0 <= k < |target.tensors| && 0 <= j < |target.tensors[k]| ==>
                target.tensors[k][j] == tau * network.tensors[k][j] + (1.0 - tau) * old(target.tensors)[k][j]
      ensures network.tensors == old(network.tensors)
    {
      ghost var before := target.tensors;
      for k := 0 to |target.tensors|
        invariant |target.tensors| == |before|
        invariant forall m :: 0 <= m < k ==> target.tensors[m] == Blend(tau, network.tensors[m], before[m])
        invariant forall m :: k <= m < |before| ==> target.tensors[m] == before[m]
      {
        var newParam := Blend(tau, network.tensors[k], target.tensors[k]);
        target.tensors := target.tensors[k := newParam];
      }
    }

    /** `train`: build the Bellman targets from the batch and the target
        critic's values `qNext`, and score the live critic's values
        `qPredicted` against them. The optimizer steps then replace the live
        critic's and the live actor's parameters by `criticStepped` and
        `actorStepped`, which keep their layout; after both steps each target
        network is soft-updated towards its stepped live network. The
        evaluator gets the report when one is supplied; the assertion on the
        episode values runs after the targets have been updated. */
    method Train(batch: Batch, qPredicted: seq<real>, qNext: seq<real>,
                 criticStepped: seq<Vector>, actorStepped: seq<Vector>,
                 hasEvaluator: bool, episodeValues: Option<seq<real>>)
      returns (r: Result<Option<Report>>)
      requires Valid()
      requires Aligned(batch, |qNext|) && |qPredicted| == |qNext|
      requires SameLayout(criticStepped, critic.params.tensors)
      requires SameLayout(actorStepped, actor.params.tensors)
      modifies actor.params, actorTarget.params, critic.params, criticTarget.params
      ensures Valid()
      ensures critic.params.tensors == criticStepped
      ensures actor.params.tensors == actorStepped
      ensures actorTarget.params.tensors == BlendAll(tau, actorStepped, old(actorTarget.params.tensors))
      ensures criticTarget.params.tensors == BlendAll(tau, criticStepped, old(criticTarget.params.tensors))
      ensures r == if !hasEvaluator then Success(None)
                   else if episodeValues.None? then Failure(AssertionError)
                   else Success(Some(Report(episodeValues.value, qPredicted,
                                            MseLoss(qPredicted, BellmanTargets(gamma, batch, qNext)))))
    {
      var targets := BellmanTargets(gamma, batch, qNext);
      var lossCritic := MseLoss(qPredicted, targets);
      critic.params.tensors := criticStepped;
      actor.params.tensors := actorStepped;

      SoftUpdate(actor.params, actorTarget.params, tau);
      SoftUpdate(critic.params, criticTarget.params, tau);

      if hasEvaluator {
        if episodeValues.None? {
          return Failure(AssertionError);
        }
        return Success(Some(Report(episodeValues.value, qPredicted, lossCritic)));
      }
      return Success(None);
    }

    /** The noisy branch of `internal_prediction`: every row calls
        `get_noise` once, with its own draw `draws[i]`, and adds the sample. */
    method AddNoise(actions: Matrix, draws: seq<Vector>) returns (perturbed: Matrix)
      requires Valid()
      requires |draws| == |actions|
      requires forall i :: 0 <= i < |actions| ==> |actions[i]| == actionDim && |draws[i]| == actionDim
      ensures Shaped(perturbed, |actions|, actionDim)
      ensures forall i, j :: 0 <= i < |actions| && 0 <= j < actionDim ==>
                perturbed[i][j] == actions[i][j] + (noise.theta * noise.mu + noise.sigma * draws[i][j])
    {
      perturbed := [];
      for i := 0 to |actions|
        invariant Shaped(perturbed, i, actionDim)
        invariant forall r, j :: 0 <= r < i && 0 <= j < actionDim ==>
                    perturbed[r][j] == actions[r][j] + (noise.theta * noise.mu + noise.sigma * draws[r][j])
      {
        var sample := noise.GetNoise(draws[i]);
        perturbed := perturbed + [AddVec(actions[i], sample)];
      }
    }

    /** The post-processing of `internal_prediction` on the actor's output
        `actions`: optional noise, then, with a truthy range, every element
        is clipped to [-1, 1] and scaled by the range. */
    method InternalPrediction(actions: Matrix, noisy: bool, draws: seq<Vector>) returns (out: Matrix)
      requires Valid()
      requires noisy ==> |draws| == |actions|
      requires noisy ==> forall i :: 0 <= i < |actions| ==> |actions[i]| == actionDim && |draws[i]| == actionDim
      ensures |out| == |actions|
      ensures forall i :: 0 <= i < |out| ==> |out[i]| == |actions[i]|
      ensures !noisy ==> forall i, j :: 0 <= i < |out| && 0 <= j < |out[i]| ==>
                out[i][j] == Finish(actionRange, actions[i][j])
      ensures noisy ==> forall i, j :: 0 <= i < |out| && 0 <= j < |out[i]| ==>
                out[i][j] == Finish(actionRange, actions[i][j] + (noise.theta * noise.mu + noise.sigma * draws[i][j]))
      ensures Truthy(actionRange) ==>
                forall i, j :: 0 <= i < |out| && 0 <= j < |out[i]| ==> Abs(out[i][j]) <= Abs(actionRange.value)
    {
      if noisy {
        var perturbed := AddNoise(actions, draws);
        out := FinishAll(actionRange, perturbed);
      } else {
        out := FinishAll(actionRange, actions);
      }
    }
  }
}
