# DDPG trainer model

This project is a Dafny model of the DDPG actor-critic trainer in
`ml/rl/training/ddpg_trainer.py` of BlueWhale. It covers:

- the trainer's construction: the optimizer check, the in-place overwrite of
  the caller's layer schemas, building the actor and critic, and copying them
  into target networks;
- the layer shapes that `ActorNet` and `CriticNet` build from a schema, the
  layout of their parameter tensors, and the dimension flow of their forward
  passes. The critic splits its input into state and action columns and
  injects the action after the layer-1 batch norm;
- the critic's Bellman targets
  `reward + gamma ** time_diff * (1 - done) * Q_target(next)`, its
  mean-squared-error loss, and the actor's loss;
- the soft (Polyak) update `tau * live + (1 - tau) * target`, applied in place
  to every target tensor;
- the post-processing of predicted actions: optional exploration noise, then
  clipping to [-1, 1] and scaling by the action range;
- the Ornstein-Uhlenbeck noise object.

Values are exact reals. A `Vector` is one row and a `Matrix` is a batch of rows.
The numerical layers (linear maps, batch norms, activation functions) are
opaque functions passed in as `Kernels`. The random numbers of weight
initialisation and of the noise draw are parameters.

Modules:
- `Outcomes`: `Option`, `Result` and the exceptions the code raises.
- `Tensors`: rows, batches, `Pow`, clipping, sums, and the column split and
  concatenation.
- `Networks`: layer shapes, the `Parameters` class, and the `ActorNet` and
  `CriticNet` classes.
- `Noise`: the `OUNoise` class.
- `Trainer`: the `DDPGTrainer` class and the specification functions of its
  losses and updates.

Two details of the code shape the noise model:
- `get_noise` (`ddpg_trainer.py:291-295`) returns `noise + dx` without storing
  it, although its docstring's `prev_noise` (line 292) and the class
  docstring's "temporally correlated noise" (lines 281-282) suggest a stored
  state. The state therefore stays the zero vector and successive samples are
  independent; `OUNoise.Valid()` records that the state is always zero.
- `internal_prediction` (`ddpg_trainer.py:150`) calls `get_noise()` once per
  row, so each row gets its own draw; `DDPGTrainer.AddNoise` takes one draw
  per row.

## Model

| member | source | states |
|---|---|---|
| Tensors.ClipUnit | ml/rl/training/ddpg_trainer.py:155 | `np.clip(x, -1, 1)` lies in [-1, 1], leaves values already in range unchanged, and is the point of [-1, 1] nearest to `x` |
| Tensors.ScaledClipBound | ml/rl/training/ddpg_trainer.py:153-157 | `range * clip(x)` has magnitude at most `abs(range)`, and lies in [-range, range] when range > 0 |
| Tensors.PowUnitInterval | ml/rl/training/ddpg_trainer.py:86-100 | a discount factor in [0, 1], raised to any number of steps, stays in [0, 1] |
| Tensors.TakeCols | ml/rl/training/ddpg_trainer.py:257 | `m[:, :k]` cuts every row to a prefix of `min(k, width)` entries, so a row shorter than `k` is kept whole |
| Tensors.DropCols | ml/rl/training/ddpg_trainer.py:258 | `m[:, k:]` leaves `width - min(k, width)` entries of every row, so a row shorter than `k` leaves nothing |
| Tensors.TakeDropRejoin | ml/rl/training/ddpg_trainer.py:256-258 | for any split point, the state part and the action part of a row rejoin to the row |
| Tensors.SplitConcat | ml/rl/training/ddpg_trainer.py:256-258 | splitting a state-action batch at the state width gives back the state and action batches, and the concatenated width is the sum of the two widths |
| Tensors.SplitShapes | ml/rl/training/ddpg_trainer.py:256-258 | a batch `k + w` wide splits into a `k`-wide state part and a `w`-wide action part, which concatenate back to the original |
| Networks.BuildActorShape | ml/rl/training/ddpg_trainer.py:187-200 | fails with AssertionError exactly when the schema has fewer than 3 entries; otherwise linear layer i maps `layers[i]` to `layers[i+1]`, has a batch norm of width `layers[i]`, and only the last layer uses the final-layer uniform init |
| Networks.BuildCriticShape | ml/rl/training/ddpg_trainer.py:227-249 | fails with AssertionError exactly when the schema has fewer than 3 entries; otherwise layer 1 takes `layers[1] + action_dim` inputs, layer i≠1 takes `layers[i]`, and only layers 0 and 1 have batch norms, of widths `layers[0]` and `layers[1]` |
| Networks.LinearLayout | ml/rl/training/ddpg_trainer.py:191-192 | each linear layer contributes a weight of `out * in` elements and then a bias of `out` elements |
| Networks.NormLayout | ml/rl/training/ddpg_trainer.py:193 | each batch norm contributes a weight and a bias of its width |
| Networks.CriticRunFailureSticks | ml/rl/training/ddpg_trainer.py:261-270 | once a layer of the critic's forward pass raises, the whole pass raises the same error |
| Networks.ActorRunShape | ml/rl/training/ddpg_trainer.py:210-216 | with width-respecting layers, `n` states of width `layers[0]` become `n` rows of width `layers[i]` after i actor layers |
| Networks.CriticRunShape | ml/rl/training/ddpg_trainer.py:260-271 | with width-respecting layers, the critic's pass never fails, the action enlarges layer 1's input to `layers[1] + action_dim`, and after i layers the rows have width `layers[i]` |
| Networks.CriticForwardShape | ml/rl/training/ddpg_trainer.py:251-271 | a full critic pass over a state-action batch of width `layers[0] + action_dim` succeeds and yields rows of width `layers[-1]`, splitting at layer 0's input width `layers[0]` |
| Networks.ActorNet.New | ml/rl/training/ddpg_trainer.py:181-200 | a fresh actor whose shape follows the schema, whose parameters are the initial draws, or AssertionError for a schema shorter than 3 |
| Networks.ActorNet.Clone | ml/rl/training/ddpg_trainer.py:56 | `deepcopy`: a new network with fresh parameter storage holding equal tensors, the same shape and the same activations |
| Networks.ActorNet.Forward | ml/rl/training/ddpg_trainer.py:202-216 | one layer per activation name: batch norm, linear, then the activation unless it is "linear"; IndexError when there are more activations than layers |
| Networks.CriticNet.New | ml/rl/training/ddpg_trainer.py:221-249 | a fresh critic whose shape follows the schema and action width, or AssertionError for a schema shorter than 3 |
| Networks.CriticNet.Clone | ml/rl/training/ddpg_trainer.py:72 | `deepcopy` of the critic: fresh storage, equal tensors, same shape and activations |
| Networks.CriticNet.Forward | ml/rl/training/ddpg_trainer.py:251-271 | the pass runs on the input split at layer 0's input width; batch norm at layers 0 and 1, the action appended after layer 1's batch norm, IndexError past the last layer, an error on a row-count mismatch in `cat` |
| Noise.OUStepMeanReverting | ml/rl/training/ddpg_trainer.py:292-295 | with a zero draw, the recurrence shrinks every element's distance from `mu` by the factor `1 - theta` |
| Noise.OUStepFromZero | ml/rl/training/ddpg_trainer.py:289-295 | from the zero state, the sample is `theta * mu + sigma * eps` element by element |
| Noise.OUNoise.constructor | ml/rl/training/ddpg_trainer.py:284-289 | defaults theta 0.15, sigma 0.02, mu 0, and a zero state of length `action_dim` |
| Noise.OUNoise.GetNoise | ml/rl/training/ddpg_trainer.py:291-295 | returns `noise + theta * (mu - noise) + sigma * eps` and leaves the state unchanged, so every sample is `theta * mu + sigma * eps` |
| Noise.OUNoise.Clear | ml/rl/training/ddpg_trainer.py:297-298 | the state becomes the zero vector of length `action_dim` |
| Trainer.BellmanTargets | ml/rl/training/ddpg_trainer.py:86-100 | a terminal sample's target is its reward exactly, whatever gamma, time_diff or q_next; any other sample's target is `reward + gamma ** time_diff * q_next` |
| Trainer.BellmanTargetBound | ml/rl/training/ddpg_trainer.py:100 | with gamma in [0, 1], a target differs from its reward by at most `abs(q_next)` |
| Trainer.DiscountPowers | ml/rl/training/ddpg_trainer.py:86-100 | the discount for 1, 2 and 5 elapsed steps is gamma, gamma², gamma⁵ |
| Trainer.MseLoss | ml/rl/training/ddpg_trainer.py:103 | the critic's loss is undefined (NaN) exactly for an empty batch, is never negative, and is zero when the predictions equal the targets |
| Trainer.MseOfOne | ml/rl/training/ddpg_trainer.py:103 | the loss of a one-sample batch is the square of its prediction error |
| Trainer.SingleSampleLoss | ml/rl/training/ddpg_trainer.py:93-103 | the loss formula for given Q values: a one-sample batch holding a non-terminal sample with gamma 0.9, time_diff 1 and reward 1 has loss `(Q_live - (1 + 0.9 * Q_target))²` |
| Trainer.ActorLossAntitone | ml/rl/training/ddpg_trainer.py:108-110 | the actor's loss `-sum(Q)` is no larger for a batch whose critic values are higher everywhere |
| Trainer.BlendAllHardCopy | ml/rl/training/ddpg_trainer.py:127-136 | with tau = 1 the target becomes a copy of the live network |
| Trainer.BlendAllIdle | ml/rl/training/ddpg_trainer.py:127-136 | with tau = 0 the target is unchanged |
| Trainer.BlendAllFixedPoint | ml/rl/training/ddpg_trainer.py:127-136 | a target equal to the live network stays equal to it, whatever tau; this holds right after construction |
| Trainer.BlendBetween | ml/rl/training/ddpg_trainer.py:135 | with tau in [0, 1], every updated element lies between the live value and the old target value |
| Trainer.RepeatGap | ml/rl/training/ddpg_trainer.py:127-136 | after n soft updates towards fixed live parameters, each gap to the live value is `(1 - tau) ** n` times the original gap |
| Trainer.ConstructionError | ml/rl/training/ddpg_trainer.py:37-72 | any optimizer other than "ADAM" raises NotImplementedError; construction succeeds exactly for "ADAM" with both schemas of length at least 3 |
| Trainer.WithEnds | ml/rl/training/ddpg_trainer.py:48-49 | `layers[0] = first; layers[-1] = last` sets the last entry, sets the first when there are two or more entries, and keeps the middle |
| Trainer.ScaleClip | ml/rl/training/ddpg_trainer.py:153-157 | every element becomes `range * clip(a, -1, 1)` and so has magnitude at most `abs(range)` |
| Trainer.FinishAll | ml/rl/training/ddpg_trainer.py:152-159 | with a truthy range every element is clipped and scaled, and bounded by `abs(range)`; with a missing or zero range the batch is returned unchanged |
| Trainer.DDPGTrainer.New | ml/rl/training/ddpg_trainer.py:18-77 | raises as `ConstructionError` says; writes `[state_dim, ..., action_dim]` and `[state_dim, ..., 1]` into the caller's schemas in place, but only as far as construction gets; on success each target has its live network's shape, activations and parameter values in separate storage, and the noise is zero |
| Trainer.DDPGTrainer.SoftUpdate | ml/rl/training/ddpg_trainer.py:127-136 | every target element becomes `tau * live + (1 - tau) * old target`, and the live network is not modified |
| Trainer.DDPGTrainer.Train | ml/rl/training/ddpg_trainer.py:79-125 | the live critic and actor take their post-step parameters, and only then is each target blended towards its stepped live network; an evaluator without episode values fails an assertion after the update; otherwise the report is `(episode_values, predictions, mse(predictions, Bellman targets))` computed before the steps |
| Trainer.DDPGTrainer.AddNoise | ml/rl/training/ddpg_trainer.py:149-150 | each row gets its own `get_noise()` sample, `theta * mu + sigma * draw`, added element by element |
| Trainer.DDPGTrainer.InternalPrediction | ml/rl/training/ddpg_trainer.py:138-159 | with a truthy action range every element is `range * clip(a + noise, -1, 1)` and has magnitude at most `abs(range)`; otherwise the (noisy) actions pass through unchanged |

## Left out

- Gradient computation and optimizer steps (`zero_grad`, `backward`, `Adam.step`, learning rates, weight decay) are library internals and are not modelled.
- Trainer.DDPGTrainer.Train: the parameters produced by the two optimizer steps are inputs (`criticStepped`, `actorStepped`, with the old layout), not computed from gradients. The critic values `Q_live(s, a)` and `Q_target(s', actor_target(s'))` are inputs rather than forward passes, so `Train` returns `Success` for a one-sample batch where the code raises in the critic's batch norm.
- Trainer.ActorLossAntitone: the actor's loss is stated over given critic values; the gradient step that minimises it is not modelled.
- Trainer.BellmanTargets: `time_diff` is a whole number of steps, and values are exact reals rather than float32.
- Trainer.MseLoss: NaN is modelled as `None`. Batches of mismatched lengths, which PyTorch would broadcast or reject, are excluded by a precondition.
- Networks.Kernels: the layers never fail. A linear layer or batch norm fed a batch of the wrong width (RuntimeError), and a training-mode batch norm fed a one-row batch (ValueError, so `train` on a batch of one sample raises at `ddpg_trainer.py:94` before any loss is computed), are not modelled. The forward passes fail here only with IndexError past the last layer and on a row-count mismatch in `torch.cat`.
- Trainer.SingleSampleLoss: states the loss formula for given Q values, not a reachable one-sample training step, since the code raises on a one-row batch as the Kernels line says.
- Batch-norm running statistics and the `eval()`/`train()` mode switch in `internal_prediction` are library internals. Batch norms are opaque width-preserving functions.
- The activation functions looked up with `getattr(F, name)` are opaque. An unknown name, which raises AttributeError in the code, is not modelled.
- Random weight initialisation (`fan_in_init`, `init.uniform_`) and `np.random.randn` are nondeterministic. The initial weights and the Gaussian draws are parameters. The fan-in bound `1 / sqrt(fan_in)` is recorded only as the `FanIn` scheme.
- `predictor()` builds a `DDPGPredictor`, an export collaborator; `DDPGPredictor` is not part of this model.
- `ml/rl/test/gridworld/test_gridworld.py` exercises a different trainer and has no logic of its own here.
- The caller's `layers` lists are arrays of naturals, so a negative placeholder entry is not representable; the model also requires the actor's and critic's lists to be distinct objects.
- Trainer.DDPGTrainer.InternalPrediction: takes the actor's output as input instead of running the actor, and the final conversion to float32 is not modelled.
