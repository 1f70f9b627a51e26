/** The MKL-DNN forward pass: the per-layer wrappers, `run_layer` (the layer
    followed by its activation sublayer) and `nnet_fwd`, which ping-pongs
    between two buffers so that no layer output is copied. Buffers are named,
    not stored: the compute kernels are foreign and are recorded only as
    launch events saying which buffer they read and which they write. */
module MklArch {
  import opened Results
  import opened NnetFwdDefs

  /** The two buffers of the forward pass: `activations.d` and `result.d`. */
  datatype Buffer = Act | Res

  function Other(b: Buffer): (o: Buffer)
    ensures o != b
  {
    match b
    case Act => Res
    case Res => Act
  }

  /** The parts of a layer description that this code reads or writes. */
  datatype Layer = Layer(
    activation: ActivationType,
    pool: PoolType,
    resultInTemp: int)

  /** The foreign compute routines a wrapper or the activation sublayer starts. */
  datatype Compute =
    | MatrixMultiplyWithBias
    | Convolution3d
    | DepthwiseConvolution3d
    | PointwiseConvolution3d
    | MaxPooling3d
    | AvgPooling3d
    | BatchNormalization
    | ActivationFun

  /** One launch of a compute routine: it reads `src` and writes `dst`. */
  datatype Launch = Launch(op: Compute, src: Buffer, dst: Buffer)

  /** The per-layer wrappers of this backend. */
  datatype Wrapper =
    | InnerProductLayer
    | StandardConvolutionLayer
    | DepthwiseConvolutionLayer
    | PointwiseConvolutionLayer
    | PoolingLayer
    | BatchNormLayer
    | ActivationSublayer

  /** What a wrapper returns (the buffer holding its output) and what it started. */
  datatype WrapperRun = WrapperRun(returned: Buffer, launch: Launch)

  /** Runs one wrapper: it launches its compute routine from `activations`
      into `result` and returns `result`. The pooling wrapper picks max or
      average pooling from the layer's pool type. */
  function RunWrapper(w: Wrapper, layer: Layer, activations: Buffer, result: Buffer): (r: WrapperRun)
    ensures r.returned == result
    ensures r.launch.src == activations && r.launch.dst == result
    ensures w == PoolingLayer ==>
              (r.launch.op == MaxPooling3d <==> layer.pool == Max)
              && (r.launch.op == AvgPooling3d <==> layer.pool == Avg)
  {
    var op := match w
      case InnerProductLayer => MatrixMultiplyWithBias
      case StandardConvolutionLayer => Convolution3d
      case DepthwiseConvolutionLayer => DepthwiseConvolution3d
      case PointwiseConvolutionLayer => PointwiseConvolution3d
      case PoolingLayer => (match layer.pool case Max => MaxPooling3d case Avg => AvgPooling3d)
      case BatchNormLayer => BatchNormalization
      case ActivationSublayer => ActivationFun;
    WrapperRun(result, Launch(op, activations, result))
  }

  /** The outcome of run_layer: the buffer it reports as holding the layer's
      output, and the activation sublayer it launched, if any. */
  datatype LayerRun = LayerRun(returned: Buffer, activationLaunch: Option<Launch>)

  /** run_layer. `skipped` is the buffer returned by the layer without its
      activation function (run_layer_skip_activation_func, which is foreign
      and so is a parameter). With an activation function, the sublayer reads
      the buffer the layer reported and writes the other one, and the result
      is reported in `activations` in both cases; without one, the skipped
      layer's buffer is returned as it is. */
  function RunLayer(layer: Layer, activations: Buffer, result: Buffer, skipped: Buffer): (r: LayerRun)
    ensures layer.activation != NoActivation ==> r.returned == activations
    ensures layer.activation != NoActivation ==>
              r.activationLaunch.Some? && r.activationLaunch.value.op == ActivationFun
    ensures layer.activation != NoActivation && skipped != activations ==>
              r.activationLaunch == Some(Launch(ActivationFun, result, activations))
    ensures layer.activation != NoActivation && skipped == activations ==>
              r.activationLaunch == Some(Launch(ActivationFun, activations, result))
    ensures layer.activation == NoActivation ==>
              r.returned == skipped && r.activationLaunch.None?
  {
    if layer.activation != NoActivation then
      if skipped == activations then
        var sub := RunWrapper(ActivationSublayer, layer, activations, result);
        LayerRun(activations, Some(sub.launch))
      else
        var sub := RunWrapper(ActivationSublayer, layer, result, activations);
        LayerRun(activations, Some(sub.launch))
    else
      LayerRun(skipped, None)
  }

  /** The step of nnet_fwd for layer l: the buffer holding the latest result
      is the layer's input and the other buffer its output. */
  datatype LayerStep = LayerStep(lnum: int, input: Buffer, output: Buffer, run: LayerRun)

  /** The whole forward pass: which layers ran and how, the buffer finally
      holding the result, and the layer table with `result_in_temp` set. */
  datatype Forward = Forward(steps: seq<LayerStep>, resultLoc: Buffer, layers: seq<Layer>)

  /** The buffer holding the latest result once layers 1 .. upto - 1 have run,
      starting from `activations.d`. `skip(l, input, output)` is the buffer
      the layer-l computation reports before its activation function. */
  function BufferAfter(layers: seq<Layer>, skip: (int, Buffer, Buffer) -> Buffer, upto: nat): Buffer
    requires upto <= |layers|
  {
    if upto <= 1 then Act
    else
      var input := BufferAfter(layers, skip, upto - 1);
      RunLayer(layers[upto - 1], input, Other(input), skip(upto - 1, input, Other(input))).returned
  }

  /** nnet_fwd: start with the result in `activations.d`, run layers
      1 .. depth - 1 in order, each reading the buffer that holds the latest
      result and writing the other, then record in the last layer whether the
      final result is in `result.d`. Layer 0 is never run. */
  method NnetFwd(layers: seq<Layer>, depth: int, skip: (int, Buffer, Buffer) -> Buffer)
    returns (f: Forward)
    requires 1 <= depth <= |layers|
    ensures |f.steps| == depth - 1
    ensures forall k :: 0 <= k < |f.steps| ==> f.steps[k].lnum == k + 1
    ensures forall k :: 0 <= k < |f.steps| ==> f.steps[k].output == Other(f.steps[k].input)
    ensures forall k :: 0 <= k < |f.steps| ==>
              f.steps[k].run == RunLayer(layers[k + 1], f.steps[k].input, f.steps[k].output,
                                         skip(k + 1, f.steps[k].input, f.steps[k].output))
    ensures |f.steps| > 0 ==> f.steps[0].input == Act
    ensures forall k :: 0 < k < |f.steps| ==> f.steps[k].input == f.steps[k - 1].run.returned
    ensures f.resultLoc == if depth == 1 then Act else f.steps[depth - 2].run.returned
    ensures f.resultLoc == BufferAfter(layers, skip, depth)
    ensures |f.layers| == |layers|
    ensures forall i :: 0 <= i < |layers| && i != depth - 1 ==> f.layers[i] == layers[i]
    ensures f.layers[depth - 1]
            == layers[depth - 1].(resultInTemp := if f.resultLoc == Res then 1 else 0)
  {
    var resultLoc := Act;
    var steps: seq<LayerStep> := [];
    var l := 1;
    while l < depth
      invariant 1 <= l <= depth
      invariant |steps| == l - 1
      invariant resultLoc == BufferAfter(layers, skip, l)
      invariant resultLoc == if l == 1 then Act else steps[l - 2].run.returned
      invariant forall k :: 0 <= k < |steps| ==> steps[k].lnum == k + 1
      invariant forall k :: 0 <= k < |steps| ==> steps[k].output == Other(steps[k].input)
      invariant forall k :: 0 <= k < |steps| ==>
                  steps[k].run == RunLayer(layers[k + 1], steps[k].input, steps[k].output,
                                           skip(k + 1, steps[k].input, steps[k].output))
      invariant |steps| > 0 ==> steps[0].input == Act
      invariant forall k :: 0 < k < |steps| ==> steps[k].input == steps[k - 1].run.returned
    {
      var input, output;
      if resultLoc == Res {
        input, output := Res, Act;
      } else {
        input, output := Act, Res;
      }
      var run := RunLayer(layers[l], input, output, skip(l, input, output));
      steps := steps + [LayerStep(l, input, output, run)];
      resultLoc := run.returned;
      l := l + 1;
    }
    var resultInTemp := if resultLoc == Res then 1 else 0;
    f := Forward(steps, resultLoc,
                 layers[depth - 1 := layers[depth - 1].(resultInTemp := resultInTemp)]);
  }

  /** Layers 1 .. upto - 1 all have an activation function. */
  predicate AllActivated(layers: seq<Layer>, upto: nat)
    requires upto <= |layers|
  {
    forall l :: 1 <= l < upto ==> layers[l].activation != NoActivation
  }

  /** If every layer after the first has an activation function, the result
      ends in `activations.d` whatever the layers themselves return, so
      `result_in_temp` is 0. */
  lemma {:induction false} AllActivatedEndsInActivations(layers: seq<Layer>,
                                                        skip: (int, Buffer, Buffer) -> Buffer,
                                                        upto: nat)
    requires upto <= |layers|
    requires AllActivated(layers, upto)
    ensures BufferAfter(layers, skip, upto) == Act
  {
    if upto > 1 {
      AllActivatedEndsInActivations(layers, skip, upto - 1);
    }
  }

  /** The number of layers among 1 .. upto - 1 without an activation function. */
  function UnactivatedCount(layers: seq<Layer>, upto: nat): nat
    requires upto <= |layers|
  {
    if upto <= 1 then 0
    else UnactivatedCount(layers, upto - 1)
         + (if layers[upto - 1].activation == NoActivation then 1 else 0)
  }

  /** A layer computation that, like every wrapper, reports its output buffer. */
  ghost predicate ReturnsOutput(skip: (int, Buffer, Buffer) -> Buffer) {
    forall l, input, output :: skip(l, input, output) == output
  }

  /** When every layer computation reports its output buffer (as the wrappers
      do), an activated layer keeps the result where its input was and a layer
      without activation moves it to the other buffer, so the result ends in
      `activations.d` exactly when an even number of layers lack activation. */
  lemma {:induction false} FinalBufferParity(layers: seq<Layer>,
                                            skip: (int, Buffer, Buffer) -> Buffer, upto: nat)
    requires upto <= |layers|
    requires ReturnsOutput(skip)
    ensures BufferAfter(layers, skip, upto) == Act <==> UnactivatedCount(layers, upto) % 2 == 0
  {
    if upto > 1 {
      FinalBufferParity(layers, skip, upto - 1);
    }
  }

  /** The wrappers fit ReturnsOutput: each reports the buffer it was told to
      write. */
  lemma WrappersReturnOutput(w: Wrapper, layer: Layer)
    ensures ReturnsOutput((l: int, input: Buffer, output: Buffer) =>
                            RunWrapper(w, layer, input, output).returned)
  {
  }
}
