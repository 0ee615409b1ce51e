/**
 * The forward pass of src/nnue.c: transformer_propagate turning the
 * accumulator into the network input, network_propagate running the two
 * hidden layers and the output layer, and nnue_evaluate scaling the output
 * into a score.  The end result is that a refreshed evaluation is the
 * network applied to the full accumulators of the board, whichever way the
 * accumulator was brought up to date.
 */
module Network {
  import opened Types
  import opened CInt
  import opened Nnue
  import opened Accumulator

  // ---- Transformer output ------------------------------------------------------

  /** Each value clamped to [0, 127]. */
  function Clamped(h: seq<int>): (r: seq<int>)
    ensures |r| == |h|
  {
    seq(|h|, k requires 0 <= k < |h| => Clamp(h[k], 0, 127))
  }

  /**
   * The input of the network: the side to move's half first, the other
   * side's half second, every value clamped to [0, 127].
   */
  function NetworkInput(s: AccState, stm: Side): (r: seq<int>)
    requires StateShaped(s)
    ensures |r| == FEATURE_OUT_DIMS
  {
    Clamped(s.Half(stm)) + Clamped(s.Half(FlipColor(stm)))
  }

  /** The input seen from the other side is the same two halves in the other order. */
  lemma InputPerspective(s: AccState, stm: Side)
    requires StateShaped(s)
    ensures NetworkInput(s, FlipColor(stm)) == NetworkInput(s, stm)[HALF_DIMS..] + NetworkInput(s, stm)[..HALF_DIMS]
    ensures forall k :: 0 <= k < FEATURE_OUT_DIMS ==> 0 <= NetworkInput(s, stm)[k] <= 127
  {
    FlipColorInvolution(stm);
    var a, b := Clamped(s.Half(stm)), Clamped(s.Half(FlipColor(stm)));
    assert (a + b)[HALF_DIMS..] == b;
    assert (a + b)[..HALF_DIMS] == a;
  }

  /** The clamping loop of transformer_propagate for one half, written at the given offset. */
  method ClampHalf(input: array<int>, offset: nat, half: seq<int>)
    requires |half| == HALF_DIMS && offset + HALF_DIMS <= input.Length
    modifies input
    ensures input[offset..offset + HALF_DIMS] == Clamped(half)
    ensures forall j :: 0 <= j < input.Length && !(offset <= j < offset + HALF_DIMS) ==> input[j] == old(input[j])
  {
    var k := 0;
    while k < HALF_DIMS
      invariant 0 <= k <= HALF_DIMS
      invariant forall j :: 0 <= j < k ==> input[offset + j] == Clamp(half[j], 0, 127)
      invariant forall j :: 0 <= j < input.Length && !(offset <= j < offset + k) ==> input[j] == old(input[j])
    {
      input[offset + k] := Clamp(half[k], 0, 127);
      k := k + 1;
    }
  }

  /** The second part of transformer_propagate: both perspectives clamped into the input. */
  method FillInput(input: array<int>, s: AccState, stm: Side)
    requires input.Length == FEATURE_OUT_DIMS && StateShaped(s)
    modifies input
    ensures input[..] == NetworkInput(s, stm)
  {
    ClampHalf(input, 0, s.Half(stm));
    ClampHalf(input, HALF_DIMS, s.Half(FlipColor(stm)));
    assert input[..] == input[0..HALF_DIMS] + input[HALF_DIMS..HALF_DIMS + HALF_DIMS];
  }

  // ---- The hidden and output layers --------------------------------------------

  /** The parameters of the network after the transformer. */
  datatype NetWeights = NetWeights(hidden1Biases: seq<int>, hidden1Weights: seq<int>,
                                   hidden2Biases: seq<int>, hidden2Weights: seq<int>,
                                   outputBiases: seq<int>, outputWeights: seq<int>)

  predicate NetShaped(n: NetWeights)
  {
    |n.hidden1Biases| == HIDDEN_LAYER_SIZE && |n.hidden1Weights| == HIDDEN_LAYER_SIZE * FEATURE_OUT_DIMS &&
    |n.hidden2Biases| == HIDDEN_LAYER_SIZE && |n.hidden2Weights| == HIDDEN_LAYER_SIZE * HIDDEN_LAYER_SIZE &&
    |n.outputBiases| == OUTPUT_LAYER_SIZE && |n.outputWeights| == HIDDEN_LAYER_SIZE * OUTPUT_LAYER_SIZE
  }

  /** layer_propagate as a value: each neuron's bias plus its weighted inputs. */
  function Layer(input: seq<int>, biases: seq<int>, weights: seq<int>, ninputs: nat, noutputs: nat): (r: seq<int>)
    requires ninputs <= |input| && noutputs <= |biases| && noutputs * ninputs <= |weights|
    ensures |r| == noutputs
  {
    seq(noutputs, k requires 0 <= k < noutputs => biases[k] + Dot(input, weights, k, noutputs, ninputs, ninputs))
  }

  /** layer_activate as a value. */
  function Activated(s: seq<int>): (r: seq<int>)
    ensures |r| == |s|
  {
    seq(|s|, k requires 0 <= k < |s| => Activation(s[k]))
  }

  /** network_propagate as a value: two hidden layers with activations, then the output neuron. */
  function NetworkOutput(input: seq<int>, n: NetWeights): int
    requires |input| == FEATURE_OUT_DIMS && NetShaped(n)
  {
    var h1 := Activated(Layer(input, n.hidden1Biases, n.hidden1Weights, FEATURE_OUT_DIMS, HIDDEN_LAYER_SIZE));
    var h2 := Activated(Layer(h1, n.hidden2Biases, n.hidden2Weights, HIDDEN_LAYER_SIZE, HIDDEN_LAYER_SIZE));
    Layer(h2, n.outputBiases, n.outputWeights, HIDDEN_LAYER_SIZE, OUTPUT_LAYER_SIZE)[0]
  }

  /** One layer_propagate followed by layer_activate, into fresh arrays. */
  method HiddenLayer(input: array<int>, biases: array<int>, weights: array<int>, ninputs: nat) returns (output: array<int>)
    requires ninputs == input.Length && HIDDEN_LAYER_SIZE <= biases.Length && HIDDEN_LAYER_SIZE * ninputs <= weights.Length
    ensures fresh(output) && output.Length == HIDDEN_LAYER_SIZE
    ensures output[..] == Activated(Layer(input[..], biases[..], weights[..], ninputs, HIDDEN_LAYER_SIZE))
  {
    var values := new int[HIDDEN_LAYER_SIZE];
    LayerPropagate(input, values, ninputs, HIDDEN_LAYER_SIZE, biases, weights);
    output := new int[HIDDEN_LAYER_SIZE];
    LayerActivate(values, output, HIDDEN_LAYER_SIZE);
    assert values[..] == Layer(input[..], biases[..], weights[..], ninputs, HIDDEN_LAYER_SIZE);
  }

  /** network_propagate: the output neuron of the network for the given input. */
  method NetworkPropagate(input: array<int>, hidden1Biases: array<int>, hidden1Weights: array<int>,
                          hidden2Biases: array<int>, hidden2Weights: array<int>,
                          outputBiases: array<int>, outputWeights: array<int>) returns (output: int)
    requires input.Length == FEATURE_OUT_DIMS
    requires NetShaped(NetWeights(hidden1Biases[..], hidden1Weights[..], hidden2Biases[..], hidden2Weights[..], outputBiases[..], outputWeights[..]))
    ensures output == NetworkOutput(input[..], NetWeights(hidden1Biases[..], hidden1Weights[..], hidden2Biases[..], hidden2Weights[..], outputBiases[..], outputWeights[..]))
  {
    var hidden1 := HiddenLayer(input, hidden1Biases, hidden1Weights, FEATURE_OUT_DIMS);
    var hidden2 := HiddenLayer(hidden1, hidden2Biases, hidden2Weights, HIDDEN_LAYER_SIZE);
    var out := new int[OUTPUT_LAYER_SIZE];
    LayerPropagate(hidden2, out, HIDDEN_LAYER_SIZE, OUTPUT_LAYER_SIZE, outputBiases, outputWeights);
    output := out[0];
  }

  // ---- Evaluation ---------------------------------------------------------------

  /** nnue_evaluate's result from an accumulator: the output divided by 16 toward zero, returned as an int16_t. */
  function Score(s: AccState, stm: Side, n: NetWeights): (r: int)
    requires StateShaped(s) && NetShaped(n)
    ensures -0x8000 <= r < 0x8000
  {
    Int16(CDiv(NetworkOutput(NetworkInput(s, stm), n), 16))
  }

  /** The score of a board computed from scratch: the network on the full accumulators of both sides. */
  function BoardScore(biases: seq<int>, w: seq<int>, p: seq<Cell>, stm: Side, n: NetWeights): (r: int)
    requires |biases| == HALF_DIMS && WeightsShaped(w) && |p| == NSQUARES && HasKing(p, WHITE) && HasKing(p, BLACK)
    requires NetShaped(n)
    ensures -0x8000 <= r < 0x8000
  {
    Score(AccState(true, BoardAccumulator(biases, w, p, WHITE), BoardAccumulator(biases, w, p, BLACK)), stm, n)
  }

  /**
   * nnue_evaluate: bring the accumulator up to date, clamp it into the
   * input, run the network and scale the output.  When the accumulator had
   * to be refreshed, the score is the board's score computed from scratch.
   */
  method NnueEvaluate(stack: EvalStack, pieces: array<Cell>, stm: Side, biases: seq<int>, w: seq<int>,
                      hidden1Biases: array<int>, hidden1Weights: array<int>, hidden2Biases: array<int>, hidden2Weights: array<int>,
                      outputBiases: array<int>, outputWeights: array<int>,
                      ghost prev: seq<Cell>, ghost prevStm: Side, ghost m: nat) returns (score: int)
    requires stack.Valid() && pieces.Length == NSQUARES && HasKing(pieces[..], WHITE) && HasKing(pieces[..], BLACK)
    requires |biases| == HALF_DIMS && Int16s(biases) && WeightsShaped(w)
    requires NetShaped(NetWeights(hidden1Biases[..], hidden1Weights[..], hidden2Biases[..], hidden2Weights[..], outputBiases[..], outputWeights[..]))
    requires stack.LinkReady(pieces[..], biases, w, prev, prevStm, m)
    modifies stack.items
    ensures stack.Valid() && stack.items[stack.sply].state.valid
    ensures score == Score(stack.items[stack.sply].state, stm,
                           NetWeights(hidden1Biases[..], hidden1Weights[..], hidden2Biases[..], hidden2Weights[..], outputBiases[..], outputWeights[..]))
    ensures !old(stack.items[stack.sply].state.valid) ==>
      score == BoardScore(biases, w, pieces[..], stm,
                          NetWeights(hidden1Biases[..], hidden1Weights[..], hidden2Biases[..], hidden2Weights[..], outputBiases[..], outputWeights[..]))
  {
    stack.Refresh(pieces, biases, w, prev, prevStm, m);
    var input := new int[FEATURE_OUT_DIMS];
    FillInput(input, stack.items[stack.sply].state, stm);
    var output := NetworkPropagate(input, hidden1Biases, hidden1Weights, hidden2Biases, hidden2Weights, outputBiases, outputWeights);
    score := Int16(CDiv(output, 16));
  }
}
