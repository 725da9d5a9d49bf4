/** The actor and critic networks: which layers their constructors build,
    how their parameters are laid out, and how a batch flows through their
    forward passes. The numerical layers themselves (linear maps, batch
    norms, activation functions) are opaque `Kernels`. */
module Networks {
  import opened Outcomes
  import opened Tensors

  /** How a linear layer's weights are initialised: the fan-in uniform rule
      for hidden layers, uniform in [-bound, bound] for the final layer. */
  datatype InitScheme = FanIn | FinalUniform(bound: real)

  /** An `nn.Linear(inFeatures, outFeatures)` and the initialiser applied to it. */
  datatype Linear = Linear(inFeatures: nat, outFeatures: nat, init: InitScheme)

  /** The module lists a network owns: its linear layers in order, and the
      width of each of its batch norms in order. */
  datatype NetShape = NetShape(linears: seq<Linear>, batchNorms: seq<nat>)

  /** The initialiser of linear layer `i` out of `count`: only the last one
      is the final-layer uniform rule. */
  function InitFor(i: nat, count: nat, flInit: real): InitScheme
  {
    if i + 1 == count then FinalUniform(flInit) else FanIn
  }

  /** The actor built from schema `layers`: layer i maps `layers[i]` to
      `layers[i+1]`, and each layer has a batch norm of its input width. */
  predicate IsActorShape(s: NetShape, layers: seq<nat>, flInit: real)
  {
    && |layers| >= 1
    && |s.linears| == |layers| - 1
    && s.batchNorms == layers[..|layers| - 1]
    && forall i :: 0 <= i < |s.linears| ==>
         s.linears[i] == Linear(layers[i], layers[i + 1], InitFor(i, |s.linears|, flInit))
  }

  /** The critic built from schema `layers`: layer 1 also takes the
      `actionDim` action columns; only layers 0 and 1 have a batch norm. */
  predicate IsCriticShape(s: NetShape, layers: seq<nat>, actionDim: nat, flInit: real)
  {
    && |layers| >= 3
    && |s.linears| == |layers| - 1
    && s.batchNorms == [layers[0], layers[1]]
    && forall i :: 0 <= i < |s.linears| ==>
         s.linears[i] == Linear(if i == 1 then layers[1] + actionDim else layers[i],
                                layers[i + 1], InitFor(i, |s.linears|, flInit))
  }

  /** The layer-building loop of `ActorNet.__init__`, with its schema assertion. */
  method BuildActorShape(layers: seq<nat>, flInit: real) returns (r: Result<NetShape>)
    ensures r.Failure? <==> |layers| < 3
    ensures r.Failure? ==> r.error == AssertionError
    ensures r.Success? ==> IsActorShape(r.value, layers, flInit)
  {
    if |layers| < 3 {
      return Failure(AssertionError);
    }
    var rest := layers[1..];
    var linears: seq<Linear> := [];
    var norms: seq<nat> := [];
    for i := 0 to |rest|
      invariant |linears| == i
      invariant norms == layers[..i]
      invariant forall j :: 0 <= j < i ==>
                  linears[j] == Linear(layers[j], layers[j + 1], InitFor(j, |rest|, flInit))
    {
      var init := if i + 1 == |rest| then FinalUniform(flInit) else FanIn;
      linears := linears + [Linear(layers[i], rest[i], init)];
      norms := norms + [layers[i]];
    }
    return Success(NetShape(linears, norms));
  }

  /** The layer-building loop of `CriticNet.__init__`, with its schema assertion. */
  method BuildCriticShape(layers: seq<nat>, actionDim: nat, flInit: real) returns (r: Result<NetShape>)
    ensures r.Failure? <==> |layers| < 3
    ensures r.Failure? ==> r.error == AssertionError
    ensures r.Success? ==> IsCriticShape(r.value, layers, actionDim, flInit)
  {
    if |layers| < 3 {
      return Failure(AssertionError);
    }
    var rest := layers[1..];
    var linears: seq<Linear> := [];
    var norms: seq<nat> := [];
    for i := 0 to |rest|
      invariant |linears| == i
      invariant norms == layers[..if i < 2 then i else 2]
      invariant forall j :: 0 <= j < i ==>
                  linears[j] == Linear(if j == 1 then layers[1] + actionDim else layers[j],
                                       layers[j + 1], InitFor(j, |rest|, flInit))
    {
      var init := if i + 1 == |rest| then FinalUniform(flInit) else FanIn;
      if i == 0 {
        linears := linears + [Linear(layers[i], rest[i], init)];
        norms := norms + [layers[i]];
      } else if i == 1 {
        linears := linears + [Linear(layers[i] + actionDim, rest[i], init)];
        norms := norms + [layers[i]];
      } else {
        linears := linears + [Linear(layers[i], rest[i], init)];
      }
    }
    return Success(NetShape(linears, norms));
  }

  /** Sizes of the weight (out x in) and bias (out) of each linear layer, in order. */
  function LinearLayout(ls: seq<Linear>): (l: seq<nat>)
    ensures |l| == 2 * |ls|
    ensures forall i :: 0 <= i < |ls| ==>
              l[2 * i] == ls[i].outFeatures * ls[i].inFeatures && l[2 * i + 1] == ls[i].outFeatures
  {
    if ls == [] then []
    else [ls[0].outFeatures * ls[0].inFeatures, ls[0].outFeatures] + LinearLayout(ls[1..])
  }

  /** Sizes of the weight and bias of each batch norm, in order. */
  function NormLayout(ns: seq<nat>): (l: seq<nat>)
    ensures |l| == 2 * |ns|
    ensures forall i :: 0 <= i < |ns| ==> l[2 * i] == ns[i] && l[2 * i + 1] == ns[i]
  {
    if ns == [] then [] else [ns[0], ns[0]] + NormLayout(ns[1..])
  }

  /** Sizes of the tensors `parameters()` yields: the linear layers' first,
      as their module list is registered first, then the batch norms'. */
  function ParamLayout(s: NetShape): seq<nat>
  {
    LinearLayout(s.linears) + NormLayout(s.batchNorms)
  }

  /** `ts` holds one flattened tensor per entry of `layout`, of that size. */
  predicate Conforms(ts: seq<Vector>, layout: seq<nat>)
  {
    |ts| == |layout| && forall k :: 0 <= k < |ts| ==> |ts[k]| == layout[k]
  }

  /** The initial parameters: the initialiser's draw for element `j` of tensor `k`. */
  function InitTensors(layout: seq<nat>, draw: (nat, nat) -> real): (ts: seq<Vector>)
    ensures Conforms(ts, layout)
    ensures forall k, j :: 0 <= k < |ts| && 0 <= j < |ts[k]| ==> ts[k][j] == draw(k, j)
  {
    seq(|layout|, k requires 0 <= k < |layout| =>
      seq(layout[k], j requires 0 <= j < layout[k] => draw(k, j)))
  }

  /** The parameter tensors of one network, updated in place. */
  class Parameters {
    var tensors: seq<Vector>

    constructor (tensors: seq<Vector>)
      ensures this.tensors == tensors
    {
      this.tensors := tensors;
    }
  }

  /** The numerical layers of a network, left opaque: batch norm `i`,
      linear layer `i`, and the activation function of a given name. They
      are total: a layer fed the wrong width, or a training-mode batch norm
      fed a single row, does not raise here. */
  datatype Kernels = Kernels(
    batchNorm: (nat, Matrix) -> Matrix,
    linear: (nat, Matrix) -> Matrix,
    activation: (string, Matrix) -> Matrix)

  /** Linear layer `i`, followed by the named activation unless that name is "linear". */
  function Transfer(k: Kernels, i: nat, act: string, x: Matrix): Matrix
  {
    var y := k.linear(i, x);
    if act == "linear" then y else k.activation(act, y)
  }

  /** The actor's forward pass over the first `|acts|` layers: each layer
      batch-normalises its input, then applies `Transfer`. */
  function ActorRun(k: Kernels, acts: seq<string>, x: Matrix): Matrix
    decreases |acts|
  {
    if acts == [] then x
    else
      var i := |acts| - 1;
      Transfer(k, i, acts[i], k.batchNorm(i, ActorRun(k, acts[..i], x)))
  }

  /** Layer `i` of the critic: batch norm on layer 0, batch norm then the
      action columns appended on layer 1, nothing on the later layers; then
      linear layer `i` and its activation. */
  function CriticLayer(k: Kernels, layerCount: nat, i: nat, act: string, x: Matrix, action: Matrix): Result<Matrix>
  {
    var pre :=
      if i == 0 then Success(k.batchNorm(0, x))
      else if i == 1 then
        var z := k.batchNorm(1, x);
        if |z| == |action| then Success(ConcatCols(z, action)) else Failure(ShapeError)
      else Success(x);
    if pre.Failure? then pre
    else if i >= layerCount then Failure(IndexError)
    else Success(Transfer(k, i, act, pre.value))
  }

  /** The critic's forward pass over the first `|acts|` layers; the first failure stops it. */
  function CriticRun(k: Kernels, layerCount: nat, acts: seq<string>, state: Matrix, action: Matrix): Result<Matrix>
    decreases |acts|
  {
    if acts == [] then Success(state)
    else
      var i := |acts| - 1;
      match CriticRun(k, layerCount, acts[..i], state, action)
      case Failure(e) => Failure(e)
      case Success(y) => CriticLayer(k, layerCount, i, acts[i], y, action)
  }

  /** Once a prefix of the critic's layers fails, the whole pass fails the same way. */
  lemma {:induction false} CriticRunFailureSticks(k: Kernels, layerCount: nat, acts: seq<string>, j: nat,
                                                 state: Matrix, action: Matrix)
    requires j <= |acts|
    requires CriticRun(k, layerCount, acts[..j], state, action).Failure?
    ensures CriticRun(k, layerCount, acts, state, action) == CriticRun(k, layerCount, acts[..j], state, action)
    decreases |acts| - j
  {
    if j < |acts| {
      var i := j;
      assert acts[..j + 1][..i] == acts[..j];
      assert CriticRun(k, layerCount, acts[..j + 1], state, action) == CriticRun(k, layerCount, acts[..j], state, action);
      CriticRunFailureSticks(k, layerCount, acts, j + 1, state, action);
    } else {
      assert acts[..j] == acts;
    }
  }

  /** The kernels respect the widths of `s`: batch norms keep their width,
      linear layer i maps `inFeatures` columns to `outFeatures` columns,
      activations keep the width, and no kernel changes the batch size. */
  ghost predicate KernelsFit(k: Kernels, s: NetShape)
  {
    && (forall i: nat, n: nat, m: Matrix :: i < |s.batchNorms| && Shaped(m, n, s.batchNorms[i]) ==>
          Shaped(k.batchNorm(i, m), n, s.batchNorms[i]))
    && (forall i: nat, n: nat, m: Matrix :: i < |s.linears| && Shaped(m, n, s.linears[i].inFeatures) ==>
          Shaped(k.linear(i, m), n, s.linears[i].outFeatures))
    && (forall a: string, n: nat, w: nat, m: Matrix :: Shaped(m, n, w) ==> Shaped(k.activation(a, m), n, w))
  }

  /** Dimension flow through the actor: after `|acts|` layers a batch of `n`
      states of width `layers[0]` has become `n` rows of width `layers[|acts|]`. */
  lemma {:induction false} ActorRunShape(k: Kernels, s: NetShape, layers: seq<nat>, flInit: real,
                                         acts: seq<string>, x: Matrix, n: nat)
    requires IsActorShape(s, layers, flInit) && KernelsFit(k, s)
    requires |acts| <= |s.linears|
    requires Shaped(x, n, layers[0])
    ensures Shaped(ActorRun(k, acts, x), n, layers[|acts|])
    decreases |acts|
  {
    if acts != [] {
      var i := |acts| - 1;
      ActorRunShape(k, s, layers, flInit, acts[..i], x, n);
      var y := ActorRun(k, acts[..i], x);
      assert s.batchNorms[i] == layers[i];
      assert Shaped(k.batchNorm(i, y), n, layers[i]);
      assert s.linears[i] == Linear(layers[i], layers[i + 1], InitFor(i, |s.linears|, flInit));
      assert Shaped(k.linear(i, k.batchNorm(i, y)), n, layers[i + 1]);
    }
  }

  /** Dimension flow through the critic: the state path has width
      `layers[i]` before layer i, the action is injected at layer 1 so that
      it receives `layers[1] + actionDim` columns, and no step fails. */
  lemma {:induction false} CriticRunShape(k: Kernels, s: NetShape, layers: seq<nat>, actionDim: nat, flInit: real,
                                          acts: seq<string>, state: Matrix, action: Matrix, n: nat)
    requires IsCriticShape(s, layers, actionDim, flInit) && KernelsFit(k, s)
    requires |acts| <= |s.linears|
    requires Shaped(state, n, layers[0]) && Shaped(action, n, actionDim)
    ensures CriticRun(k, |s.linears|, acts, state, action).Success?
    ensures Shaped(CriticRun(k, |s.linears|, acts, state, action).value, n, layers[|acts|])
    decreases |acts|
  {
    if acts != [] {
      var i := |acts| - 1;
      CriticRunShape(k, s, layers, actionDim, flInit, acts[..i], state, action, n);
      var y := CriticRun(k, |s.linears|, acts[..i], state, action).value;
      var l := s.linears[i];
      assert l.outFeatures == layers[i + 1];
      assert Shaped(y, n, layers[i]);
      if i == 0 {
        assert s.batchNorms[0] == layers[0];
        assert Shaped(k.batchNorm(0, y), n, layers[0]);
      } else if i == 1 {
        var z := k.batchNorm(1, y);
        assert s.batchNorms[1] == layers[1];
        assert Shaped(z, n, layers[1]);
        SplitConcat(z, action, n, layers[1], actionDim);
      }
    }
  }

  /** The actor network: its layer lists are fixed at construction, its
      parameters are updated in place. */
  class ActorNet {
    const shape: NetShape
    const activations: seq<string>
    const params: Parameters

    ghost predicate Valid()
      reads params
    {
      Conforms(params.tensors, ParamLayout(shape))
    }

    constructor (shape: NetShape, activations: seq<string>, params: Parameters)
      requires Conforms(params.tensors, ParamLayout(shape))
      ensures this.shape == shape && this.activations == activations && this.params == params
      ensures Valid()
    {
      this.shape := shape;
      this.activations := activations;
      this.params := params;
    }

    /** `ActorNet(layers, activations, fl_init)`, with the initialiser's draws supplied by `draw`. */
    static method New(layers: seq<nat>, activations: seq<string>, flInit: real, draw: (nat, nat) -> real)
      returns (r: Result<ActorNet>)
      ensures r.Failure? <==> |layers| < 3
      ensures r.Failure? ==> r.error == AssertionError
      ensures r.Success? ==> && fresh(r.value) && fresh(r.value.params) && r.value.Valid()
                             && IsActorShape(r.value.shape, layers, flInit)
                             && r.value.activations == activations
                             && r.value.params.tensors == InitTensors(ParamLayout(r.value.shape), draw)
    {
      var built := BuildActorShape(layers, flInit);
      if built.Failure? {
        return Failure(built.error);
      }
      var p := new Parameters(InitTensors(ParamLayout(built.value), draw));
      var net := new ActorNet(built.value, activations, p);
      return Success(net);
    }

    /** `deepcopy`: a new network with its own, equal, parameter storage. */
    method Clone() returns (c: ActorNet)
      requires Valid()
      ensures fresh(c) && fresh(c.params) && c.Valid()
      ensures c.shape == shape && c.activations == activations && c.params.tensors == params.tensors
    {
      var p := new Parameters(params.tensors);
      c := new ActorNet(shape, activations, p);
    }

    /** `ActorNet.forward`: one layer per activation name; indexing past the
        last layer raises. */
    method Forward(k: Kernels, state: Matrix) returns (r: Result<Matrix>)
      ensures r == if |activations| > |shape.linears| || |activations| > |shape.batchNorms|
                   then Failure(IndexError)
                   else Success(ActorRun(k, activations, state))
    {
      var x := state;
      for i := 0 to |activations|
        invariant i <= |shape.linears| && i <= |shape.batchNorms|
        invariant x == ActorRun(k, activations[..i], state)
      {
        if i >= |shape.batchNorms| {
          return Failure(IndexError);
        }
        x := k.batchNorm(i, x);
        if i >= |shape.linears| {
          return Failure(IndexError);
        }
        assert activations[..i + 1][..i] == activations[..i];
        x := Transfer(k, i, activations[i], x);
      }
      assert activations[..|activations|] == activations;
      return Success(x);
    }
  }

  /** The critic network: as the actor, with the action injected at layer 1. */
  class CriticNet {
    const shape: NetShape
    const activations: seq<string>
    const params: Parameters

    ghost predicate Valid()
      reads params
    {
      && |shape.linears| >= 2
      && |shape.batchNorms| == 2
      && Conforms(params.tensors, ParamLayout(shape))
    }

    constructor (shape: NetShape, activations: seq<string>, params: Parameters)
      requires |shape.linears| >= 2 && |shape.batchNorms| == 2
      requires Conforms(params.tensors, ParamLayout(shape))
      ensures this.shape == shape && this.activations == activations && this.params == params
      ensures Valid()
    {
      this.shape := shape;
      this.activations := activations;
      this.params := params;
    }

    /** `CriticNet(layers, activations, fl_init, action_dim)`, with the
        initialiser's draws supplied by `draw`. */
    static method New(layers: seq<nat>, activations: seq<string>, flInit: real, actionDim: nat,
                      draw: (nat, nat) -> real)
      returns (r: Result<CriticNet>)
      ensures r.Failure? <==> |layers| < 3
      ensures r.Failure? ==> r.error == AssertionError
      ensures r.Success? ==> && fresh(r.value) && fresh(r.value.params) && r.value.Valid()
                             && IsCriticShape(r.value.shape, layers, actionDim, flInit)
                             && r.value.activations == activations
                             && r.value.params.tensors == InitTensors(ParamLayout(r.value.shape), draw)
    {
      var built := BuildCriticShape(layers, actionDim, flInit);
      if built.Failure? {
        return Failure(built.error);
      }
      var p := new Parameters(InitTensors(ParamLayout(built.value), draw));
      var net := new CriticNet(built.value, activations, p);
      return Success(net);
    }

    /** `deepcopy`: a new network with its own, equal, parameter storage. */
    method Clone() returns (c: CriticNet)
      requires Valid()
      ensures fresh(c) && fresh(c.params) && c.Valid()
      ensures c.shape == shape && c.activations == activations && c.params.tensors == params.tensors
    {
      var p := new Parameters(params.tensors);
      c := new CriticNet(shape, activations, p);
    }

    /** `CriticNet.forward`: the input is split at the input width of layer
        0 into state and action columns, then runs through the layers. */
    method Forward(k: Kernels, stateAction: Matrix) returns (r: Result<Matrix>)
      requires |shape.linears| >= 2 && |shape.batchNorms| == 2
      ensures r == CriticRun(k, |shape.linears|, activations,
                             TakeCols(stateAction, shape.linears[0].inFeatures),
                             DropCols(stateAction, shape.linears[0].inFeatures))
    {
      var stateDim := shape.linears[0].inFeatures;
      var state := TakeCols(stateAction, stateDim);
      var action := DropCols(stateAction, stateDim);
      var n := |shape.linears|;
      var x := state;
      for i := 0 to |activations|
        invariant CriticRun(k, n, activations[..i], state, action) == Success(x)
      {
        assert activations[..i + 1][..i] == activations[..i];
        if i == 0 {
          x := k.batchNorm(i, x);
        } else if i == 1 {
          x := k.batchNorm(i, x);
          if |x| != |action| {
            CriticRunFailureSticks(k, n, activations, i + 1, state, action);
            return Failure(ShapeError);
          }
          x := ConcatCols(x, action);
        }
        if i >= n {
          CriticRunFailureSticks(k, n, activations, i + 1, state, action);
          return Failure(IndexError);
        }
        x := Transfer(k, i, activations[i], x);
      }
      assert activations[..|activations|] == activations;
      return Success(x);
    }
  }

  /** End to end: a critic built from `layers`, fed a batch whose `n` rows are
      `layers[0]` state columns followed by `actionDim` action columns, with
      one activation per layer, yields `n` rows of width `layers[|layers|-1]`. */
  lemma CriticForwardShape(k: Kernels, s: NetShape, layers: seq<nat>, actionDim: nat, flInit: real,
                           acts: seq<string>, stateAction: Matrix, n: nat)
    requires IsCriticShape(s, layers, actionDim, flInit) && KernelsFit(k, s)
    requires |acts| == |s.linears|
    requires Shaped(stateAction, n, layers[0] + actionDim)
    ensures s.linears[0].inFeatures == layers[0]
    ensures CriticRun(k, |s.linears|, acts, TakeCols(stateAction, layers[0]), DropCols(stateAction, layers[0])).Success?
    ensures Shaped(CriticRun(k, |s.linears|, acts, TakeCols(stateAction, layers[0]),
                             DropCols(stateAction, layers[0])).value, n, layers[|layers| - 1])
  {
    SplitShapes(stateAction, n, layers[0], actionDim);
    CriticRunShape(k, s, layers, actionDim, flInit, acts, TakeCols(stateAction, layers[0]),
                   DropCols(stateAction, layers[0]), n);
  }
}
