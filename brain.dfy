/**
 * The feedforward controller of every agent: a stack of fully connected
 * layers, each an affine map followed by a named activation. Hidden layers
 * apply one activation to the whole vector; the output layer chooses an
 * activation per unit.
 */
module Brains {
  import opened Common

  // ---------------------------------------------------------------------
  // Activations
  // ---------------------------------------------------------------------

  /** `np.maximum(0, x)`: the rectifier. */
  function Relu(x: real): (r: real)
    ensures r >= 0.0 && r >= x
    ensures r == x || r == 0.0
  {
    if x > 0.0 then x else 0.0
  }

  /** The activation names `activate` recognises. */
  predicate Known(name: string)
  {
    name == "sigmoid" || name == "tanh" || name == "relu"
  }

  /** One unit through a recognised activation. */
  function ActivateUnit(x: real, name: string, num: Numerics): real
    requires Known(name)
  {
    if name == "sigmoid" then num.sigmoid(x)
    else if name == "tanh" then num.tanh(x)
    else Relu(x)
  }

  /**
   * `activate(x, func)`: dispatches on the three names; any other name falls
   * off the end of the `if` chain, and the result is `None`.
   */
  function Activate(x: real, name: string, num: Numerics): (r: Option<real>)
    ensures r.Some? <==> Known(name)
    ensures name == "sigmoid" ==> r == Some(num.sigmoid(x))
    ensures name == "tanh" ==> r == Some(num.tanh(x))
    ensures name == "relu" ==> r == Some(Relu(x))
  {
    if Known(name) then Some(ActivateUnit(x, name, num)) else None
  }

  /** A hidden layer's activation, applied to every unit of the vector. */
  function ActivateAll(z: seq<real>, name: string, num: Numerics): (r: seq<real>)
    requires Known(name)
    ensures |r| == |z|
    ensures forall k :: 0 <= k < |z| ==> Activate(z[k], name, num) == Some(r[k])
    ensures name == "relu" ==> forall k :: 0 <= k < |r| ==> r[k] >= 0.0
  {
    seq(|z|, k requires 0 <= k < |z| => ActivateUnit(z[k], name, num))
  }

  // ---------------------------------------------------------------------
  // Affine maps
  // ---------------------------------------------------------------------

  /** `m` is a `rows` x `cols` matrix, stored row by row. */
  predicate IsMatrix(m: seq<seq<real>>, rows: nat, cols: nat)
  {
    |m| == rows && forall r :: 0 <= r < rows ==> |m[r]| == cols
  }

  /** The sum over the first `n` rows of `v[r] * m[r][c]`. */
  function ColumnDot(v: seq<real>, m: seq<seq<real>>, c: nat, n: nat): real
    requires n <= |v| && n <= |m|
    requires forall r :: 0 <= r < n ==> c < |m[r]|
  {
    if n == 0 then 0.0 else ColumnDot(v, m, c, n - 1) + v[n - 1] * m[n - 1][c]
  }

  /** `np.dot(v, m) + b` for a vector `v` and a `|v|` x `|b|` matrix `m`. */
  function Affine(v: seq<real>, m: seq<seq<real>>, b: seq<real>): (z: seq<real>)
    requires IsMatrix(m, |v|, |b|)
    ensures |z| == |b|
  {
    seq(|b|, c requires 0 <= c < |b| => ColumnDot(v, m, c, |v|) + b[c])
  }

  // ---------------------------------------------------------------------
  // Network shapes and the forward pass
  // ---------------------------------------------------------------------

  /** Number of weight matrices built for `sizes`: `range(len(sizes) - 1)`. */
  function LayerCount(sizes: seq<nat>): nat
  {
    if |sizes| == 0 then 0 else |sizes| - 1
  }

  /**
   * Matrix `i` maps layer `i` to layer `i + 1`: it is
   * `sizes[i]` x `sizes[i + 1]`, and its bias has `sizes[i + 1]` entries.
   */
  predicate Shaped(sizes: seq<nat>, weights: seq<seq<seq<real>>>, biases: seq<seq<real>>)
  {
    && |weights| == LayerCount(sizes)
    && |biases| == |weights|
    && forall i :: 0 <= i < |weights| ==>
         IsMatrix(weights[i], sizes[i], sizes[i + 1]) && |biases[i]| == sizes[i + 1]
  }

  /**
   * What `forward` needs of its network: at least one matrix
   * (`weights[-1]`) and a recognised activation for every hidden layer it
   * applies, since an unrecognised one yields `None` and the next `np.dot`
   * raises. An unrecognised output name does not raise: numpy stores the
   * `None` as NaN in the float array of outputs, and a real cannot be NaN,
   * so every output unit needs a recognised name too. `CanForward` adds an
   * input of the first layer's width (`np.dot`).
   */
  predicate NetworkReady(sizes: seq<nat>, weights: seq<seq<seq<real>>>,
                         biases: seq<seq<real>>, hidden: seq<string>, outputs: seq<string>)
  {
    && Shaped(sizes, weights, biases)
    && |weights| >= 1
    && |hidden| >= |weights| - 1
    && (forall i :: 0 <= i < |weights| - 1 ==> Known(hidden[i]))
    && |outputs| >= sizes[|weights|]
    && (forall j :: 0 <= j < sizes[|weights|] ==> Known(outputs[j]))
  }

  predicate CanForward(x: seq<real>, sizes: seq<nat>, weights: seq<seq<seq<real>>>,
                       biases: seq<seq<real>>, hidden: seq<string>, outputs: seq<string>)
  {
    NetworkReady(sizes, weights, biases, hidden, outputs) && |x| == sizes[0]
  }

  /** Hidden layer `i`: `activate(v . W[i] + b[i], name)`, of the next layer's width. */
  function Layer(v: seq<real>, sizes: seq<nat>, weights: seq<seq<seq<real>>>,
                 biases: seq<seq<real>>, name: string, num: Numerics, i: nat): (r: seq<real>)
    requires Shaped(sizes, weights, biases) && i < |weights| && |v| == sizes[i] && Known(name)
    ensures |r| == sizes[i + 1]
  {
    assert IsMatrix(weights[i], sizes[i], sizes[i + 1]) && |biases[i]| == sizes[i + 1];
    ActivateAll(Affine(v, weights[i], biases[i]), name, num)
  }

  /**
   * The input followed by the first `k` hidden layers' activations: entry
   * `i + 1` is `Layer(entry[i], .., hidden[i], .., i)`.
   */
  function Hidden(x: seq<real>, sizes: seq<nat>, weights: seq<seq<seq<real>>>,
                  biases: seq<seq<real>>, hidden: seq<string>, num: Numerics, k: nat): (acts: seq<seq<real>>)
    requires Shaped(sizes, weights, biases) && k < |weights| && |x| == sizes[0]
    requires k <= |hidden| && forall i :: 0 <= i < k ==> Known(hidden[i])
    ensures |acts| == k + 1 && acts[0] == x
    ensures forall i :: 0 <= i <= k ==> |acts[i]| == sizes[i]
    decreases k
  {
    if k == 0 then [x]
    else
      var prev := Hidden(x, sizes, weights, biases, hidden, num, k - 1);
      prev + [Layer(prev[k - 1], sizes, weights, biases, hidden[k - 1], num, k - 1)]
  }

  /** The output layer: unit `j` goes through `outputs[j]`. */
  function OutputLayer(z: seq<real>, outputs: seq<string>, num: Numerics): (r: seq<real>)
    requires |outputs| >= |z| && forall j :: 0 <= j < |z| ==> Known(outputs[j])
    ensures |r| == |z|
    ensures forall j :: 0 <= j < |z| ==> Activate(z[j], outputs[j], num) == Some(r[j])
  {
    seq(|z|, j requires 0 <= j < |z| => ActivateUnit(z[j], outputs[j], num))
  }

  /** The pre-activation of the output layer. */
  function FinalInput(x: seq<real>, sizes: seq<nat>, weights: seq<seq<seq<real>>>,
                      biases: seq<seq<real>>, hidden: seq<string>, outputs: seq<string>, num: Numerics): (z: seq<real>)
    requires CanForward(x, sizes, weights, biases, hidden, outputs)
    ensures |z| == sizes[|weights|]
  {
    var h := Hidden(x, sizes, weights, biases, hidden, num, |weights| - 1);
    Affine(h[|weights| - 1], weights[|weights| - 1], biases[|weights| - 1])
  }

  /** The list `forward` returns: the input, each hidden layer, the outputs. */
  function ForwardPass(x: seq<real>, sizes: seq<nat>, weights: seq<seq<seq<real>>>,
                       biases: seq<seq<real>>, hidden: seq<string>, outputs: seq<string>, num: Numerics): seq<seq<real>>
    requires CanForward(x, sizes, weights, biases, hidden, outputs)
  {
    Hidden(x, sizes, weights, biases, hidden, num, |weights| - 1)
      + [OutputLayer(FinalInput(x, sizes, weights, biases, hidden, outputs, num), outputs, num)]
  }

  /** Entry `i + 1` of `Hidden(.., k)` is entry `i` through hidden layer `i`. */
  lemma {:induction false} HiddenStep(x: seq<real>, sizes: seq<nat>, weights: seq<seq<seq<real>>>,
                                      biases: seq<seq<real>>, hidden: seq<string>, num: Numerics, k: nat, i: nat)
    requires Shaped(sizes, weights, biases) && k < |weights| && |x| == sizes[0]
    requires k <= |hidden| && forall j :: 0 <= j < k ==> Known(hidden[j])
    requires i < k
    ensures var acts := Hidden(x, sizes, weights, biases, hidden, num, k);
      acts[i + 1] == Layer(acts[i], sizes, weights, biases, hidden[i], num, i)
    decreases k
  {
    var prev := Hidden(x, sizes, weights, biases, hidden, num, k - 1);
    var acts := Hidden(x, sizes, weights, biases, hidden, num, k);
    assert acts == prev + [Layer(prev[k - 1], sizes, weights, biases, hidden[k - 1], num, k - 1)];
    if i < k - 1 {
      HiddenStep(x, sizes, weights, biases, hidden, num, k - 1, i);
      assert acts[i] == prev[i] && acts[i + 1] == prev[i + 1];
    }
  }

  /**
   * The shape and meaning of `forward`'s result: `len(weights) + 1` vectors,
   * the first the input itself, hidden layer `i + 1` the activation
   * `hidden[i]` of every unit of `acts[i] . W[i] + b[i]`, and the last of
   * length `sizes[-1]` with unit `j` passed through `outputs[j]`.
   */
  lemma ForwardPassShape(x: seq<real>, sizes: seq<nat>, weights: seq<seq<seq<real>>>,
                         biases: seq<seq<real>>, hidden: seq<string>, outputs: seq<string>, num: Numerics)
    requires CanForward(x, sizes, weights, biases, hidden, outputs)
    ensures var acts := ForwardPass(x, sizes, weights, biases, hidden, outputs, num);
      && |acts| == |weights| + 1
      && acts[0] == x
      && (forall i :: 0 <= i < |weights| - 1 ==>
            acts[i + 1] == Layer(acts[i], sizes, weights, biases, hidden[i], num, i))
      && |acts[|weights|]| == sizes[|weights|]
      && var z := Affine(acts[|weights| - 1], weights[|weights| - 1], biases[|weights| - 1]);
         forall j :: 0 <= j < |z| ==> Activate(z[j], outputs[j], num) == Some(acts[|weights|][j])
  {
    var n := |weights| - 1;
    forall i | 0 <= i < n
      ensures var acts := Hidden(x, sizes, weights, biases, hidden, num, n);
        acts[i + 1] == Layer(acts[i], sizes, weights, biases, hidden[i], num, i)
    {
      HiddenStep(x, sizes, weights, biases, hidden, num, n, i);
    }
  }

  /** `Hidden` reads only the first `k` hidden activation names. */
  lemma {:induction false} HiddenUsesPrefix(x: seq<real>, sizes: seq<nat>, weights: seq<seq<seq<real>>>,
                                            biases: seq<seq<real>>, hidden: seq<string>, hidden': seq<string>,
                                            num: Numerics, k: nat)
    requires Shaped(sizes, weights, biases) && k < |weights| && |x| == sizes[0]
    requires k <= |hidden| && forall i :: 0 <= i < k ==> Known(hidden[i])
    requires k <= |hidden'| && hidden'[..k] == hidden[..k]
    ensures Hidden(x, sizes, weights, biases, hidden', num, k) == Hidden(x, sizes, weights, biases, hidden, num, k)
    decreases k
  {
    assert forall i :: 0 <= i < k ==> hidden'[i] == hidden[..k][i];
    if k > 0 {
      assert hidden'[..k - 1] == hidden[..k - 1];
      HiddenUsesPrefix(x, sizes, weights, biases, hidden, hidden', num, k - 1);
    }
  }

  /**
   * Only the first `len(weights) - 1` hidden activation names matter: with
   * three matrices, `hidden[2]` and beyond are never used.
   */
  lemma OnlyLeadingHiddenActivationsUsed(x: seq<real>, sizes: seq<nat>, weights: seq<seq<seq<real>>>,
                                         biases: seq<seq<real>>, hidden: seq<string>, hidden': seq<string>,
                                         outputs: seq<string>, num: Numerics)
    requires CanForward(x, sizes, weights, biases, hidden, outputs)
    requires |hidden'| >= |weights| - 1 && hidden'[..|weights| - 1] == hidden[..|weights| - 1]
    ensures CanForward(x, sizes, weights, biases, hidden', outputs)
    ensures ForwardPass(x, sizes, weights, biases, hidden', outputs, num)
         == ForwardPass(x, sizes, weights, biases, hidden, outputs, num)
  {
    var n := |weights| - 1;
    assert forall i :: 0 <= i < n ==> hidden'[i] == hidden[..n][i];
    HiddenUsesPrefix(x, sizes, weights, biases, hidden, hidden', num, n);
  }

  /**
   * Layer `i` as `__init__` builds it: a `rows` x `cols` matrix whose entries
   * are the drawn samples scaled by `sqrt(2 / rows)`, and `cols` drawn biases.
   */
  predicate Drawn(w: seq<seq<real>>, b: seq<real>, i: nat, rows: nat, cols: nat,
                  weightDraw: (nat, nat, nat) -> real, biasDraw: (nat, nat) -> real, num: Numerics)
  {
    && IsMatrix(w, rows, cols)
    && |b| == cols
    && (forall r, c :: 0 <= r < rows && 0 <= c < cols ==>
          w[r][c] == weightDraw(i, r, c) * num.sqrt(2.0 / (rows as real)))
    && (forall c :: 0 <= c < cols ==> b[c] == biasDraw(i, c))
  }

  /** The three controls `decide_action` reads off the output layer. */
  datatype Actions = Actions(thrustLevel: real, brakeLevel: real, turning: real)

  // ---------------------------------------------------------------------
  // The brain object
  // ---------------------------------------------------------------------

  /**
   * A network. Its lists are built once, by the constructor, and never
   * changed afterwards; the object's identity matters because an elite agent
   * shares its parent's brain.
   */
  class Brain {
    const layerSizes: seq<nat>
    const weights: seq<seq<seq<real>>>
    const biases: seq<seq<real>>
    const activationFunctions: seq<string>
    const outputActivations: seq<string>
    const num: Numerics

    predicate Valid()
    {
      Shaped(layerSizes, weights, biases)
    }

    /**
     * `Brain(layer_sizes, activation_functions, output_activations)`.
     * `weightDraw(i, r, c)` and `biasDraw(i, c)` stand for the standard
     * normal samples `np.random.randn` draws for matrix `i`; a weight is its
     * sample scaled by `sqrt(2 / layer_sizes[i])`. A layer of width zero
     * feeding another layer makes brain.py divide by zero.
     */
    constructor(layerSizes: seq<nat>, activationFunctions: seq<string>, outputActivations: seq<string>,
                weightDraw: (nat, nat, nat) -> real, biasDraw: (nat, nat) -> real, num: Numerics)
      requires forall i :: 0 <= i < |layerSizes| - 1 ==> layerSizes[i] > 0
      ensures Valid()
      ensures this.layerSizes == layerSizes
      ensures this.activationFunctions == activationFunctions
      ensures this.outputActivations == outputActivations
      ensures this.num == num
      ensures forall i :: 0 <= i < |weights| ==>
                Drawn(weights[i], biases[i], i, layerSizes[i], layerSizes[i + 1], weightDraw, biasDraw, num)
    {
      var ws: seq<seq<seq<real>>> := [];
      var bs: seq<seq<real>> := [];
      var i := 0;
      while i < LayerCount(layerSizes)
        invariant 0 <= i <= LayerCount(layerSizes)
        invariant |ws| == i && |bs| == i
        invariant forall k :: 0 <= k < i ==>
                    Drawn(ws[k], bs[k], k, layerSizes[k], layerSizes[k + 1], weightDraw, biasDraw, num)
      {
        var rows, cols := layerSizes[i], layerSizes[i + 1];
        var scale := num.sqrt(2.0 / (rows as real));
        var weight := seq(rows, r requires 0 <= r < rows => seq(cols, c requires 0 <= c < cols => weightDraw(i, r, c) * scale));
        var bias := seq(cols, c requires 0 <= c < cols => biasDraw(i, c));
        assert Drawn(weight, bias, i, rows, cols, weightDraw, biasDraw, num);
        ws := ws + [weight];
        bs := bs + [bias];
        i := i + 1;
      }
      this.layerSizes := layerSizes;
      this.weights := ws;
      this.biases := bs;
      this.activationFunctions := activationFunctions;
      this.outputActivations := outputActivations;
      this.num := num;
    }

    /** The network can run a forward pass on inputs of the first layer's width. */
    predicate Ready()
    {
      NetworkReady(layerSizes, weights, biases, activationFunctions, outputActivations)
    }

    /** What `forward(x)` needs so that it does not raise. */
    predicate Accepts(x: seq<real>)
    {
      CanForward(x, layerSizes, weights, biases, activationFunctions, outputActivations)
    }

    /** `forward(inputs)`: the activations of every layer, input first. */
    method Forward(inputs: seq<real>) returns (activations: seq<seq<real>>)
      requires Accepts(inputs)
      ensures activations
           == ForwardPass(inputs, layerSizes, weights, biases, activationFunctions, outputActivations, num)
    {
      activations := HiddenLayers(inputs);
      var last := |weights| - 1;
      var finalLayerInput := Affine(activations[last], weights[last], biases[last]);
      var outputs := OutputUnits(finalLayerInput);
      activations := activations + [outputs];
    }

    /** The first loop of `forward`: the input, then each hidden layer in turn. */
    method HiddenLayers(inputs: seq<real>) returns (activations: seq<seq<real>>)
      requires Accepts(inputs)
      ensures activations == Hidden(inputs, layerSizes, weights, biases, activationFunctions, num, |weights| - 1)
    {
      var x := inputs;
      activations := [inputs];
      var i := 0;
      while i < |weights| - 1
        invariant 0 <= i <= |weights| - 1
        invariant activations == Hidden(inputs, layerSizes, weights, biases, activationFunctions, num, i)
        invariant x == activations[i]
      {
        x := Layer(x, layerSizes, weights, biases, activationFunctions[i], num, i);
        activations := activations + [x];
        i := i + 1;
      }
    }

    /** The second loop of `forward`: `outputs[j] = activate(z[j], output_activations[j])`. */
    method OutputUnits(z: seq<real>) returns (outputs: seq<real>)
      requires |outputActivations| >= |z| && forall j :: 0 <= j < |z| ==> Known(outputActivations[j])
      ensures outputs == OutputLayer(z, outputActivations, num)
    {
      var a := new real[|z|](_ => 0.0);
      var j := 0;
      while j < a.Length
        invariant 0 <= j <= a.Length
        invariant forall k :: 0 <= k < j ==> a[k] == ActivateUnit(z[k], outputActivations[k], num)
      {
        a[j] := ActivateUnit(z[j], outputActivations[j], num);
        j := j + 1;
      }
      outputs := a[..];
    }

    /** `decide_action(inputs)`: outputs 0, 1 and 2, and every layer's activations. */
    method DecideAction(inputs: seq<real>) returns (actions: Actions, activations: seq<seq<real>>)
      requires Accepts(inputs) && layerSizes[|weights|] >= 3
      ensures activations
           == ForwardPass(inputs, layerSizes, weights, biases, activationFunctions, outputActivations, num)
      ensures |activations| == |weights| + 1 && |activations[|weights|]| == layerSizes[|weights|]
      ensures var out := activations[|weights|];
              actions == Actions(out[0], out[1], out[2])
      ensures actions == Decide(this, inputs)
    {
      activations := Forward(inputs);
      ForwardPassShape(inputs, layerSizes, weights, biases, activationFunctions, outputActivations, num);
      var outputs := activations[|activations| - 1];
      actions := Actions(outputs[0], outputs[1], outputs[2]);
    }
  }

  /** The controls as functions of the input, for reasoning about a whole tick. */
  function Decide(b: Brain, x: seq<real>): (a: Actions)
    requires b.Accepts(x) && b.layerSizes[|b.weights|] >= 3
    ensures var z := FinalInput(x, b.layerSizes, b.weights, b.biases, b.activationFunctions, b.outputActivations, b.num);
      && Activate(z[0], b.outputActivations[0], b.num) == Some(a.thrustLevel)
      && Activate(z[1], b.outputActivations[1], b.num) == Some(a.brakeLevel)
      && Activate(z[2], b.outputActivations[2], b.num) == Some(a.turning)
  {
    var out := OutputLayer(FinalInput(x, b.layerSizes, b.weights, b.biases, b.activationFunctions, b.outputActivations, b.num),
                           b.outputActivations, b.num);
    Actions(out[0], out[1], out[2])
  }
}
