/** The Transformer length-of-stay model: what its constructor derives from the configuration,
    its forward pass over a batch, and its loss dispatch. */
module Transformer {
  import opened Common
  import opened Output
  import opened Fusion
  import opened Positional

  /** The three batch-normalisation variants a stage of the head can use: the custom masked
      batch norm with a momentum, the library's standard batch norm, or a pass-through. */
  datatype NormLayer = CustomBatchNorm(momentum: real) | StandardBatchNorm | NoNorm

  /** The configuration fields the model reads. */
  datatype Config = Config(
    dModel: nat,
    nLayers: nat,
    nHeads: nat,
    feedforwardSize: nat,
    transDropoutRate: real,
    mainDropoutRate: real,
    diagnosisSize: nat,
    batchnorm: string,
    lastLinearSize: nat,
    noExp: bool)

  /** What the constructor fixes once: the widths of its layers and the chosen norm variants. */
  datatype Model = Model(
    config: Config,
    features: nat,                 // F
    diagnoses: nat,                // D
    noFlatFeatures: nat,
    momentum: real,
    inputChannels: nat,            // channels of the time series, embedded by the encoder
    diagnosisNorm: NormLayer,
    pointInFeatures: nat,          // width of the fused row the point layer expects
    pointNorm: NormLayer,
    positional: Matrix)            // the encoder's positional table, d_model × 336

  /** Momentum of the custom batch norm. */
  function Momentum(batchnorm: string): (m: real)
    ensures m == 0.01 <==> batchnorm == "low_momentum"
    ensures m == 0.1 <==> batchnorm != "low_momentum"
  {
    if batchnorm == "low_momentum" then 0.01 else 0.1
  }

  /** Norm variant after the diagnosis encoder. Any other setting, 'pointonly' and unknown
      strings included, falls through to the pass-through. */
  function DiagnosisNorm(batchnorm: string): (n: NormLayer)
    ensures n.CustomBatchNorm? <==> batchnorm == "mybatchnorm" || batchnorm == "low_momentum"
    ensures n.CustomBatchNorm? ==> n.momentum == Momentum(batchnorm)
    ensures n == StandardBatchNorm <==> batchnorm == "default"
    ensures n == NoNorm <==> batchnorm !in {"mybatchnorm", "low_momentum", "default"}
  {
    if batchnorm in ["mybatchnorm", "low_momentum"] then CustomBatchNorm(Momentum(batchnorm))
    else if batchnorm == "default" then StandardBatchNorm
    else NoNorm
  }

  /** Norm variant after the point layer: as for the diagnoses, and 'pointonly' also selects
      the custom batch norm. */
  function PointNorm(batchnorm: string): (n: NormLayer)
    ensures n.CustomBatchNorm? <==> batchnorm in {"mybatchnorm", "pointonly", "low_momentum"}
    ensures n.CustomBatchNorm? ==> n.momentum == Momentum(batchnorm)
    ensures n == StandardBatchNorm <==> batchnorm == "default"
    ensures n == NoNorm <==> batchnorm !in {"mybatchnorm", "pointonly", "low_momentum", "default"}
  {
    if batchnorm in ["mybatchnorm", "pointonly", "low_momentum"] then CustomBatchNorm(Momentum(batchnorm))
    else if batchnorm == "default" then StandardBatchNorm
    else NoNorm
  }

  /** The two stages choose the same variant for every setting but 'pointonly', which
      normalises the point stage only, with the default momentum. */
  lemma NormStagesDifferOnlyForPointOnly(batchnorm: string)
    ensures DiagnosisNorm(batchnorm) == PointNorm(batchnorm) <==> batchnorm != "pointonly"
    ensures batchnorm == "pointonly" ==>
      DiagnosisNorm(batchnorm) == NoNorm && PointNorm(batchnorm) == CustomBatchNorm(0.1)
  {
  }

  /** nn.Dropout accepts a probability in [0, 1] only. */
  predicate ValidDropout(p: real) {
    0.0 <= p <= 1.0
  }

  /** Transformer.__init__: the widths, norm variants and positional table derived from the
      configuration. The two dropout layers are built first and reject a rate outside [0, 1];
      building the sequence encoder then builds the positional table, so the constructor also
      fails when the table cannot be built. Both custom norms share the model's momentum, the
      point stage normalises whenever the diagnosis stage does, and the standard norm is
      chosen for both stages or for neither. */
  function Init(config: Config, f: nat, d: nat, noFlatFeatures: nat,
                sinAt: (nat, nat) -> real, cosAt: (nat, nat) -> real): (r: Result<Model>)
    ensures r.Ok? <==> ValidDropout(config.transDropoutRate) && ValidDropout(config.mainDropoutRate) &&
                       ((config.dModel % 2 == 0 && config.dModel > 0) || config.dModel == 1)
    ensures !ValidDropout(config.transDropoutRate) ==>
      r == Err(DropoutOutOfRange(config.transDropoutRate))
    ensures ValidDropout(config.transDropoutRate) && !ValidDropout(config.mainDropoutRate) ==>
      r == Err(DropoutOutOfRange(config.mainDropoutRate))
    ensures ValidDropout(config.transDropoutRate) && ValidDropout(config.mainDropoutRate) ==>
      (config.dModel == 0 ==> r == Err(ZeroModelWidth)) &&
      (config.dModel > 1 && config.dModel % 2 == 1 ==> r == Err(OddModelWidth(config.dModel)))
    ensures r.Ok? ==> r.value.config == config && r.value.features == f && r.value.diagnoses == d
    ensures r.Ok? ==> r.value.noFlatFeatures == noFlatFeatures
    ensures r.Ok? ==> r.value.inputChannels == 2 * f + 2
    ensures r.Ok? ==> r.value.pointInFeatures == config.dModel + config.diagnosisSize + noFlatFeatures
    ensures r.Ok? ==> r.value.momentum == Momentum(config.batchnorm)
    ensures r.Ok? ==> r.value.diagnosisNorm == DiagnosisNorm(config.batchnorm)
    ensures r.Ok? ==> r.value.pointNorm == PointNorm(config.batchnorm)
    ensures r.Ok? ==> r.value.positional == BuildTable(config.dModel, sinAt, cosAt).value
    ensures r.Ok? ==> IsTable(r.value.positional, config.dModel)
    ensures r.Ok? ==> (r.value.momentum == 0.01 <==> config.batchnorm == "low_momentum")
    ensures r.Ok? ==> (r.value.diagnosisNorm.CustomBatchNorm? ==>
                         r.value.diagnosisNorm.momentum == r.value.momentum)
    ensures r.Ok? ==> (r.value.pointNorm.CustomBatchNorm? ==>
                         r.value.pointNorm.momentum == r.value.momentum)
    ensures r.Ok? ==> (r.value.diagnosisNorm.CustomBatchNorm? ==> r.value.pointNorm.CustomBatchNorm?)
    ensures r.Ok? ==> (r.value.diagnosisNorm == StandardBatchNorm <==>
                         r.value.pointNorm == StandardBatchNorm)
  {
    if !ValidDropout(config.transDropoutRate) then Err(DropoutOutOfRange(config.transDropoutRate))
    else if !ValidDropout(config.mainDropoutRate) then Err(DropoutOutOfRange(config.mainDropoutRate))
    else
    match BuildTable(config.dModel, sinAt, cosAt)
    case Err(e) => Err(e)
    case Ok(table) =>
      var momentum := Momentum(config.batchnorm);
      Ok(Model(config, f, d, noFlatFeatures, momentum, 2 * f + 2,
               DiagnosisNorm(config.batchnorm),
               config.dModel + config.diagnosisSize + noFlatFeatures,
               PointNorm(config.batchnorm),
               table))
  }

  /** The fused rows built in the forward pass are exactly as wide as the point layer the
      constructor sized: static features, diagnosis encoding and encoder channels, whatever
      the order of concatenation. */
  lemma FusedWidthMatchesPointLayer(config: Config, f: nat, d: nat, noFlatFeatures: nat,
                                    sinAt: (nat, nat) -> real, cosAt: (nat, nat) -> real,
                                    flat: Matrix, diag: Matrix, x: Tensor3, t: nat, i: nat)
    requires t >= Window
    requires IsMatrix(flat, |x|, noFlatFeatures) && IsMatrix(diag, |x|, config.diagnosisSize)
    requires IsTensor3(x, |x|, config.dModel, t)
    requires i < |x| * Retained(t)
    ensures Init(config, f, d, noFlatFeatures, sinAt, cosAt).Ok? ==>
      |Fuse(flat, diag, x, noFlatFeatures, config.diagnosisSize, config.dModel, t)[i]|
      == Init(config, f, d, noFlatFeatures, sinAt, cosAt).value.pointInFeatures
  {
  }

  /** The learnt parts of the network, opaque here: the encoder stack applied to the raw batch
      and its length, the diagnosis encoder (linear map and its norm variant), the point head
      applied to one fused row (linear map, norm variant, ReLU, final linear map), and the
      exponential of the output link. */
  datatype Layers = Layers(
    encoder: (Tensor3, nat) -> Tensor3,
    diagnosisEncoder: seq<real> -> seq<real>,
    pointHead: seq<real> -> real,
    exp: real -> real)

  function Relu(v: real): real {
    if v > 0.0 then v else 0.0
  }

  function ReluRow(v: seq<real>): (r: seq<real>)
    ensures |r| == |v| && forall i :: 0 <= i < |r| ==> r[i] >= 0.0
  {
    seq(|v|, i requires 0 <= i < |v| => Relu(v[i]))
  }

  function ReluTensor(x: Tensor3): Tensor3 {
    seq(|x|, b requires 0 <= b < |x| => seq(|x[b]|, c requires 0 <= c < |x[b]| => ReluRow(x[b][c])))
  }

  /** `relu(diagnosis_encoder(diagnoses))`, one row per sequence: as wide as the encoder's
      output and never negative. */
  function DiagnosisEncoding(diagnoses: Matrix, layers: Layers): (r: Matrix)
    ensures |r| == |diagnoses|
    ensures forall b :: 0 <= b < |r| ==> |r[b]| == |layers.diagnosisEncoder(diagnoses[b])|
    ensures forall b, j :: 0 <= b < |r| && 0 <= j < |r[b]| ==> r[b][j] >= 0.0
    ensures forall b, j :: 0 <= b < |r| && 0 <= j < |r[b]| ==>
      r[b][j] >= layers.diagnosisEncoder(diagnoses[b])[j] &&
      (r[b][j] == 0.0 || r[b][j] == layers.diagnosisEncoder(diagnoses[b])[j])
  {
    seq(|diagnoses|, b requires 0 <= b < |diagnoses| => ReluRow(layers.diagnosisEncoder(diagnoses[b])))
  }

  /** The features the point head sees for step k of sequence b (k counted after the window),
      given the encoder output e: static features, encoded diagnoses, rectified encoder channels. */
  function PointFeatures(e: Tensor3, diagnoses: Matrix, flat: Matrix, layers: Layers,
                         b: nat, k: nat): seq<real>
    requires b < |e| && b < |diagnoses| && b < |flat|
    requires forall c :: 0 <= c < |e[b]| ==> k + Window < |e[b][c]|
  {
    flat[b] + ReluRow(layers.diagnosisEncoder(diagnoses[b])) + ReluRow(TimeColumn(e[b], k + Window))
  }

  /** The fused feature matrix of the forward pass, built from the encoder output e: one row
      per retained step, and row b·(T − 5) + k is the point-feature vector of step k of
      sequence b. */
  function FusedFeatures(model: Model, e: Tensor3, t: nat, diagnoses: Matrix, flat: Matrix,
                         layers: Layers): (r: Matrix)
    requires t >= Window
    requires IsTensor3(e, |e|, model.config.dModel, t)
    requires |diagnoses| == |e| && IsMatrix(flat, |e|, model.noFlatFeatures)
    requires forall b :: 0 <= b < |e| ==>
      |layers.diagnosisEncoder(diagnoses[b])| == model.config.diagnosisSize
    ensures IsMatrix(r, |e| * Retained(t),
                     model.noFlatFeatures + model.config.diagnosisSize + model.config.dModel)
    ensures forall b, k :: 0 <= b < |e| && 0 <= k < Retained(t) ==>
      r[FlatIndex(b, k, Retained(t), |e|)] == PointFeatures(e, diagnoses, flat, layers, b, k)
  {
    var diag := DiagnosisEncoding(diagnoses, layers);
    var xFinal := ReluTensor(e);
    assert IsMatrix(diag, |e|, model.config.diagnosisSize) by {
      forall b | 0 <= b < |e|
        ensures |diag[b]| == model.config.diagnosisSize
      {
        assert diag[b] == ReluRow(layers.diagnosisEncoder(diagnoses[b]));
      }
    }
    assert IsTensor3(xFinal, |e|, model.config.dModel, t);
    Fuse(flat, diag, xFinal, model.noFlatFeatures, model.config.diagnosisSize, model.config.dModel, t)
  }

  /** Transformer.forward on a batch x of shape B × (2F + 2) × T. Predictions exist for steps
      5..T−1 of every sequence; with no such step, or no sequence, the final reshape fails.
      Prediction [b][k] is the transformed score of the fused row of step k + 5 of sequence b,
      and lies between half an hour and 100 days. */
  function Forward(model: Model, x: Tensor3, t: nat, diagnoses: Matrix, flat: Matrix,
                   layers: Layers): (r: Result<Matrix>)
    requires IsTensor3(x, |x|, model.inputChannels, t)
    requires IsTensor3(layers.encoder(x, t), |x|, model.config.dModel, t)
    requires IsMatrix(diagnoses, |x|, model.diagnoses) && IsMatrix(flat, |x|, model.noFlatFeatures)
    requires forall b :: 0 <= b < |x| ==>
      |layers.diagnosisEncoder(diagnoses[b])| == model.config.diagnosisSize
    ensures r.Ok? <==> |x| > 0 && t > Window
    ensures r.Err? ==> r.error == EmptyPredictionWindow(|x|, t)
    ensures r.Ok? ==> IsMatrix(r.value, |x|, t - Window)
    ensures r.Ok? ==> forall b, k :: 0 <= b < |x| && 0 <= k < t - Window ==>
      r.value[b][k] == Transform(layers.pointHead(PointFeatures(layers.encoder(x, t), diagnoses, flat, layers, b, k)),
                                 model.config.noExp, layers.exp)
    ensures r.Ok? ==> forall b, k :: 0 <= b < |x| && 0 <= k < t - Window ==>
      MinPrediction <= r.value[b][k] <= MaxPrediction
  {
    var batch := |x|;
    if batch == 0 || t <= Window then
      Err(EmptyPredictionWindow(batch, t))
    else
      var e := layers.encoder(x, t);
      var n := Retained(t);
      var fused := FusedFeatures(model, e, t, diagnoses, flat, layers);
      var scores := seq(|fused|, i requires 0 <= i < |fused| => layers.pointHead(fused[i]));
      var grid := View(scores, batch, n);
      Ok(seq(batch, b requires 0 <= b < batch =>
        seq(n, k requires 0 <= k < n => Transform(grid[b][k], model.config.noExp, layers.exp))))
  }

  /** Encoder steps 0..4 never reach a prediction: two batches whose encoder outputs agree on
      every later step get the same predictions. */
  lemma EarlyStepsNeverUsed(model: Model, x: Tensor3, x': Tensor3, t: nat, diagnoses: Matrix,
                            flat: Matrix, layers: Layers)
    requires |x'| == |x|
    requires IsTensor3(x, |x|, model.inputChannels, t) && IsTensor3(x', |x|, model.inputChannels, t)
    requires IsTensor3(layers.encoder(x, t), |x|, model.config.dModel, t)
    requires IsTensor3(layers.encoder(x', t), |x|, model.config.dModel, t)
    requires IsMatrix(diagnoses, |x|, model.diagnoses) && IsMatrix(flat, |x|, model.noFlatFeatures)
    requires forall b :: 0 <= b < |x| ==>
      |layers.diagnosisEncoder(diagnoses[b])| == model.config.diagnosisSize
    requires forall b, c, p :: 0 <= b < |x| && 0 <= c < model.config.dModel && Window <= p < t ==>
      layers.encoder(x, t)[b][c][p] == layers.encoder(x', t)[b][c][p]
    ensures Forward(model, x, t, diagnoses, flat, layers) == Forward(model, x', t, diagnoses, flat, layers)
  {
    var r := Forward(model, x, t, diagnoses, flat, layers);
    var r' := Forward(model, x', t, diagnoses, flat, layers);
    if r.Ok? {
      var e, e' := layers.encoder(x, t), layers.encoder(x', t);
      assert r'.Ok? && |r.value| == |r'.value|;
      forall b | 0 <= b < |x|
        ensures r.value[b] == r'.value[b]
      {
        assert |r.value[b]| == |r'.value[b]| == t - Window;
        forall k | 0 <= k < t - Window
          ensures r.value[b][k] == r'.value[b][k]
        {
          assert TimeColumn(e[b], k + Window) == TimeColumn(e'[b], k + Window);
          assert PointFeatures(e, diagnoses, flat, layers, b, k) == PointFeatures(e', diagnoses, flat, layers, b, k);
        }
      }
      assert r.value == r'.value;
    }
  }

  /** The two loss criteria the model can train with. */
  datatype LossKind = Msle | Mse

  /** The loss dispatch: 'msle' and 'mse' name a criterion; any other name leaves the loss
      unbound, which fails. */
  function LossKindOf(lossType: string): (r: Result<LossKind>)
    ensures r == Ok(Msle) <==> lossType == "msle"
    ensures r == Ok(Mse) <==> lossType == "mse"
    ensures r.Err? <==> lossType != "msle" && lossType != "mse"
    ensures r.Err? ==> r.error == UnknownLossType(lossType)
  {
    if lossType == "msle" then Ok(Msle)
    else if lossType == "mse" then Ok(Mse)
    else Err(UnknownLossType(lossType))
  }

  /** The arguments the model hands to the chosen criterion. */
  datatype LossInputs = LossInputs(
    yHat: Matrix,
    y: Matrix,
    mask: seq<seq<bool>>,
    seqLengths: seq<nat>,
    sumLosses: bool)

  /** Transformer.loss: the criterion chosen by name applied to the inputs. The criteria
      themselves (masked mean squared error on values or on their logarithms) are given. */
  function Loss(inputs: LossInputs, lossType: string, criterion: (LossKind, LossInputs) -> real): (r: Result<real>)
    ensures r.Ok? <==> lossType == "msle" || lossType == "mse"
    ensures lossType == "msle" ==> r == Ok(criterion(Msle, inputs))
    ensures lossType == "mse" ==> r == Ok(criterion(Mse, inputs))
    ensures r.Err? ==> r.error == UnknownLossType(lossType)
  {
    match LossKindOf(lossType)
    case Ok(kind) => Ok(criterion(kind, inputs))
    case Err(e) => Err(e)
  }

  /** The model's `remove_none`: the present entries, in their original order. */
  function RemoveNone<T>(xs: seq<Option<T>>): (r: seq<T>)
    ensures |r| <= |xs|
    ensures forall i :: 0 <= i < |r| ==> Some(r[i]) in xs
    ensures forall j :: 0 <= j < |xs| && xs[j].Some? ==> xs[j].value in r
    ensures (forall i :: 0 <= i < |xs| ==> xs[i].Some?) ==> |r| == |xs|
  {
    if xs == [] then []
    else
      var rest := RemoveNone(xs[1..]);
      match xs[0]
      case Some(v) => [v] + rest
      case None => rest
  }

  /** Filtering a concatenation filters each part and keeps them in order. */
  lemma {:induction false} RemoveNoneAppend<T>(xs: seq<Option<T>>, ys: seq<Option<T>>)
    ensures RemoveNone(xs + ys) == RemoveNone(xs) + RemoveNone(ys)
  {
    if xs != [] {
      assert (xs + ys)[1..] == xs[1..] + ys;
      RemoveNoneAppend(xs[1..], ys);
    } else {
      assert xs + ys == ys;
    }
  }

  /** With no absent entry, the filter returns every value at its own position. */
  lemma {:induction false} RemoveNoneAllPresent<T>(xs: seq<Option<T>>, i: nat)
    requires forall j :: 0 <= j < |xs| ==> xs[j].Some?
    requires i < |xs|
    ensures |RemoveNone(xs)| == |xs| && RemoveNone(xs)[i] == xs[i].value
  {
    if i > 0 {
      RemoveNoneAllPresent(xs[1..], i - 1);
    }
  }
}
