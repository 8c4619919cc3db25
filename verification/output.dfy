/** The output link of the model: an optional exponential followed by a hard clamp of every
    prediction to the range from half an hour to 100 days (expressed in days). */
module Output {

  const MinPrediction: real := 1.0 / 48.0
  const MaxPrediction: real := 100.0

  /** nn.Hardtanh(min_val=1/48, max_val=100): a floor and a ceiling, not a rescaling. */
  function Hardtanh(v: real): (r: real)
    ensures MinPrediction <= r <= MaxPrediction
    ensures MinPrediction <= v <= MaxPrediction ==> r == v
    ensures v < MinPrediction ==> r == MinPrediction
    ensures v > MaxPrediction ==> r == MaxPrediction
  {
    if v < MinPrediction then MinPrediction
    else if v > MaxPrediction then MaxPrediction
    else v
  }

  function Abs(v: real): real {
    if v < 0.0 then -v else v
  }

  /** The clamp sends every value to the point of the range nearest to it. */
  lemma HardtanhIsNearest(v: real, y: real)
    requires MinPrediction <= y <= MaxPrediction
    ensures Abs(Hardtanh(v) - v) <= Abs(y - v)
  {
  }

  /** Clamping twice is clamping once, and the clamp keeps the order of its inputs. */
  lemma HardtanhIdempotentMonotone(v: real, w: real)
    ensures Hardtanh(Hardtanh(v)) == Hardtanh(v)
    ensures v <= w ==> Hardtanh(v) <= Hardtanh(w)
  {
  }

  /** The final transform of a raw score: clamp it directly when no_exp is set, otherwise clamp
      its exponential (the exponential is given, as floating-point exp is left out). */
  function Transform(raw: real, noExp: bool, exp: real -> real): (r: real)
    ensures MinPrediction <= r <= MaxPrediction
    ensures noExp && MinPrediction <= raw <= MaxPrediction ==> r == raw
    ensures !noExp && MinPrediction <= exp(raw) <= MaxPrediction ==> r == exp(raw)
    ensures (if noExp then raw else exp(raw)) < MinPrediction ==> r == MinPrediction
    ensures (if noExp then raw else exp(raw)) > MaxPrediction ==> r == MaxPrediction
  {
    if noExp then Hardtanh(raw) else Hardtanh(exp(raw))
  }

  /** With the exponential link, taking the logarithm of a prediction gives back the raw score
      whenever the clamp did not cut it, and the logarithm of a bound otherwise. */
  lemma LogRecoversRaw(raw: real, exp: real -> real, log: real -> real)
    requires log(exp(raw)) == raw
    ensures MinPrediction <= exp(raw) <= MaxPrediction ==> log(Transform(raw, false, exp)) == raw
    ensures exp(raw) < MinPrediction ==> log(Transform(raw, false, exp)) == log(MinPrediction)
    ensures exp(raw) > MaxPrediction ==> log(Transform(raw, false, exp)) == log(MaxPrediction)
  {
  }
}
