/** Put-call parity analysis: the violation classifier, synthetic prices,
    the z-score outlier detector and the 0-100 opportunity score. The
    discount factor e^(-rT) and numpy's mean and sample standard deviation
    are inputs, not computed. */
module Parity {
  import opened Base
  import opened Json

  // -------------------------------------------------------------- violation

  datatype ArbitrageType = CallOverpriced | PutOverpriced | NoViolation

  datatype Violation = Violation(parityValue: real, marketSpread: real, dollars: real, pct: real,
                                 isViolation: bool, kind: ArbitrageType)

  /** S - K * e^(-rT), with the discount factor given. */
  function ParityValue(stock: real, strike: real, discount: real): real {
    stock - strike * discount
  }

  /** `calculate_put_call_parity_violation`. */
  function Classify(call: real, put: real, stock: real, strike: real, discount: real, threshold: real): (v: Violation)
    ensures v.dollars == (call - put) - ParityValue(stock, strike, discount)
    ensures strike <= 0.0 ==> v.pct == 0.0
    ensures strike > 0.0 ==> v.pct * strike == v.dollars * 100.0
    ensures v.isViolation <==> Abs(v.pct) > threshold * 100.0
    ensures v.kind == CallOverpriced <==> v.isViolation && v.dollars > 0.0
    ensures v.kind == PutOverpriced <==> v.isViolation && v.dollars <= 0.0
    ensures v.kind == NoViolation <==> !v.isViolation
  {
    var pv := ParityValue(stock, strike, discount);
    var spread := call - put;
    var dollars := spread - pv;
    var pct := if strike > 0.0 then (dollars / strike) * 100.0 else 0.0;
    var isViolation := Abs(pct) > threshold * 100.0;
    var kind := if isViolation then (if dollars > 0.0 then CallOverpriced else PutOverpriced) else NoViolation;
    Violation(pv, spread, dollars, pct, isViolation, kind)
  }

  /** For a positive strike and a non-negative threshold the direction of
      the violation is the sign of the percentage: calls are overpriced
      exactly when the percentage exceeds the threshold, puts exactly when
      it falls below its negation. */
  lemma ClassifyBySign(call: real, put: real, stock: real, strike: real, discount: real, threshold: real)
    requires strike > 0.0 && threshold >= 0.0
    ensures var v := Classify(call, put, stock, strike, discount, threshold);
      && (v.kind == CallOverpriced <==> v.pct > threshold * 100.0)
      && (v.kind == PutOverpriced <==> v.pct < -threshold * 100.0)
  {
    var v := Classify(call, put, stock, strike, discount, threshold);
    assert v.pct > 0.0 <==> v.dollars > 0.0 by {
      assert v.pct * strike == v.dollars * 100.0;
      if v.pct > 0.0 {
        assert v.pct * strike > 0.0;
      } else {
        assert v.pct * strike <= 0.0;
      }
    }
  }

  /** Prices that satisfy parity exactly are never flagged, whatever the
      non-negative threshold. */
  lemma ExactParityIsNoViolation(put: real, stock: real, strike: real, discount: real, threshold: real)
    requires threshold >= 0.0
    ensures var call := put + ParityValue(stock, strike, discount);
      Classify(call, put, stock, strike, discount, threshold).kind == NoViolation
  {
  }

  /** With a non-positive strike nothing is flagged, since the percentage is
      forced to zero. */
  lemma NonPositiveStrikeIsNoViolation(call: real, put: real, stock: real, strike: real, discount: real, threshold: real)
    requires strike <= 0.0 && threshold >= 0.0
    ensures Classify(call, put, stock, strike, discount, threshold).kind == NoViolation
  {
  }

  // ------------------------------------------------------ synthetic prices

  datatype Synthetic = Synthetic(call: Option<real>, put: Option<real>)

  /** `calculate_synthetic_prices`: a synthetic call from the put and a
      synthetic put from the call, each missing when its input is. */
  function SyntheticPrices(stock: real, strike: real, discount: real,
                           call: Option<real>, put: Option<real>): (r: Synthetic)
    ensures r.call.None? <==> put.None?
    ensures r.put.None? <==> call.None?
    ensures put.Some? ==> r.call.value - put.value == ParityValue(stock, strike, discount)
    ensures call.Some? ==> call.value - r.put.value == ParityValue(stock, strike, discount)
  {
    var pv := ParityValue(stock, strike, discount);
    Synthetic(if put.Some? then Some(put.value + pv) else None,
              if call.Some? then Some(call.value - pv) else None)
  }

  /** The two synthetic prices invert each other: the synthetic put of a
      synthetic call is the put it came from, and conversely. */
  lemma SyntheticRoundTrip(stock: real, strike: real, discount: real, price: real)
    ensures var sc := SyntheticPrices(stock, strike, discount, None, Some(price)).call;
      SyntheticPrices(stock, strike, discount, sc, None).put == Some(price)
    ensures var sp := SyntheticPrices(stock, strike, discount, Some(price), None).put;
      SyntheticPrices(stock, strike, discount, None, sp).call == Some(price)
  {
  }

  /** A synthetic call priced from a put is never flagged against that put. */
  lemma SyntheticCallSatisfiesParity(put: real, stock: real, strike: real, discount: real, threshold: real)
    requires threshold >= 0.0
    ensures var sc := SyntheticPrices(stock, strike, discount, None, Some(put)).call.value;
      Classify(sc, put, stock, strike, discount, threshold).kind == NoViolation
  {
    ExactParityIsNoViolation(put, stock, strike, discount, threshold);
  }

  // --------------------------------------------------------------- outliers

  /** The metric of one option: None when the key is missing or None, its
      number otherwise (a bool counts as 0 or 1). Any other value makes
      `math.isnan` raise. */
  function MetricValue(opt: Object, metric: string): (r: Result<Option<real>>)
    ensures r.Err? <==> metric in opt && (opt[metric].Str? || opt[metric].Arr? || opt[metric].Obj?)
    ensures r.Ok? && r.value.None? <==> metric !in opt || opt[metric].Null?
  {
    match Get(opt, metric, Null)
    case Null => Ok(None)
    case Bool(b) => Ok(Some(if b then 1.0 else 0.0))
    case Int(i) => Ok(Some(i as real))
    case Float(f) => Ok(Some(f))
    case other => Err("must be real number, not " + TypeName(other))
  }

  /** How many options carry the metric, counted from the end. */
  function PresentCount(opts: seq<Object>, metric: string): nat {
    if opts == [] then 0
    else PresentCount(opts[..|opts| - 1], metric)
         + (if Get(opts[|opts| - 1], metric, Null).Null? then 0 else 1)
  }

  lemma {:induction false} PresentCountFront(opts: seq<Object>, metric: string)
    requires opts != []
    ensures PresentCount(opts, metric)
         == (if Get(opts[0], metric, Null).Null? then 0 else 1) + PresentCount(opts[1..], metric)
    decreases |opts|
  {
    if |opts| > 1 {
      var init := opts[..|opts| - 1];
      PresentCountFront(init, metric);
      assert init[1..] == opts[1..][..|opts[1..]| - 1];
      assert init[0] == opts[0];
    } else {
      assert opts[1..] == [];
      assert opts[..0] == [];
    }
  }

  /** The metric values present, in order, or the first error. */
  function MetricValues(opts: seq<Object>, metric: string): (r: Result<seq<real>>)
    ensures r.Ok? <==> forall i | 0 <= i < |opts| :: MetricValue(opts[i], metric).Ok?
    ensures r.Ok? ==> |r.value| == PresentCount(opts, metric)
    ensures r.Ok? ==> forall i | 0 <= i < |opts| && MetricValue(opts[i], metric).value.Some? ::
                        MetricValue(opts[i], metric).value.value in r.value
  {
    if opts == [] then Ok([])
    else
      var v :- MetricValue(opts[0], metric);
      var rest :- MetricValues(opts[1..], metric);
      PresentCountFront(opts, metric);
      assert forall i | 1 <= i < |opts| :: opts[i] == opts[1..][i - 1];
      Ok(if v.Some? then [v.value] + rest else rest)
  }

  /** The four fields the detector adds to each option. */
  function MeanKey(metric: string): string { metric + "_mean" }
  function StdKey(metric: string): string { metric + "_std" }
  function ZKey(metric: string): string { metric + "_z_score" }
  function OutlierKey(metric: string): string { "is_" + metric + "_outlier" }

  function Annotate(opt: Object, metric: string, mean: Value, std: Value, z: real, outlier: bool): Object {
    opt[MeanKey(metric) := mean][StdKey(metric) := std][ZKey(metric) := Float(z)][OutlierKey(metric) := Bool(outlier)]
  }

  /** The z-score of one option and whether it is an outlier. */
  function ZScore(val: Option<real>, mean: real, std: real, threshold: real): (r: (real, bool))
    ensures r.1 ==> val.Some? && std > 0.0 && Abs(r.0) > threshold
    ensures val.Some? && std > 0.0 ==> (r.1 <==> Abs(r.0) > threshold)
    ensures val.Some? && std > 0.0 ==> r.0 * std == val.value - mean
    ensures !(val.Some? && std > 0.0) ==> r == (0.0, false)
  {
    if val.Some? && std > 0.0 then
      var z := (val.value - mean) / std;
      (z, Abs(z) > threshold)
    else (0.0, false)
  }

  /** `detect_statistical_outliers`. `moments` stands for numpy's mean and
      sample standard deviation of the values. */
  function DetectOutliers(opts: seq<Object>, metric: string, threshold: real,
                          moments: seq<real> -> (real, real)): (r: Result<seq<Object>>)
    ensures opts == [] ==> r == Ok([])
    ensures r.Ok? <==> MetricValues(opts, metric).Ok?
    ensures r.Ok? ==> |r.value| == |opts|
  {
    if opts == [] then Ok([])
    else
      var values :- MetricValues(opts, metric);
      if |values| < 3 then
        Ok(seq(|opts|, i requires 0 <= i < |opts| => Annotate(opts[i], metric, Null, Null, 0.0, false)))
      else
        var (mean, std) := moments(values);
        Ok(seq(|opts|, i requires 0 <= i < |opts| =>
          var zo := ZScore(MetricValue(opts[i], metric).value, mean, std, threshold);
          Annotate(opts[i], metric, Float(mean), Float(std), zo.0, zo.1)))
  }

  /** Every option keeps its own fields and gains the four statistics
      fields; with fewer than three values present, every option gets null
      statistics, a zero z-score and no outlier flag. */
  lemma OutliersAnnotateInPlace(opts: seq<Object>, metric: string, threshold: real,
                                moments: seq<real> -> (real, real), i: nat)
    requires DetectOutliers(opts, metric, threshold, moments).Ok? && i < |opts|
    ensures var out := DetectOutliers(opts, metric, threshold, moments).value[i];
      && out.Keys == opts[i].Keys + {MeanKey(metric), StdKey(metric), ZKey(metric), OutlierKey(metric)}
      && (forall k | k in opts[i] && k !in {MeanKey(metric), StdKey(metric), ZKey(metric), OutlierKey(metric)} ::
            out[k] == opts[i][k])
      && (PresentCount(opts, metric) < 3 ==>
            && out[MeanKey(metric)] == Null && out[StdKey(metric)] == Null
            && out[ZKey(metric)] == Float(0.0) && out[OutlierKey(metric)] == Bool(false))
  {
    var values := MetricValues(opts, metric).value;
    var out := DetectOutliers(opts, metric, threshold, moments).value[i];
    if |values| < 3 {
      assert out == Annotate(opts[i], metric, Null, Null, 0.0, false);
      AnnotateFields(opts[i], metric, Null, Null, 0.0, false);
    } else {
      var (mean, std) := moments(values);
      var zo := ZScore(MetricValue(opts[i], metric).value, mean, std, threshold);
      assert out == Annotate(opts[i], metric, Float(mean), Float(std), zo.0, zo.1);
      AnnotateFields(opts[i], metric, Float(mean), Float(std), zo.0, zo.1);
    }
  }

  /** The four statistics keys are distinct, and annotating sets exactly
      them. */
  lemma AnnotateFields(opt: Object, metric: string, mean: Value, std: Value, z: real, outlier: bool)
    ensures var out := Annotate(opt, metric, mean, std, z, outlier);
      && out.Keys == opt.Keys + {MeanKey(metric), StdKey(metric), ZKey(metric), OutlierKey(metric)}
      && (forall k | k in opt && k !in {MeanKey(metric), StdKey(metric), ZKey(metric), OutlierKey(metric)} ::
            out[k] == opt[k])
      && out[MeanKey(metric)] == mean && out[StdKey(metric)] == std
      && out[ZKey(metric)] == Float(z) && out[OutlierKey(metric)] == Bool(outlier)
  {
    assert |MeanKey(metric)| == |metric| + 5;
    assert |StdKey(metric)| == |metric| + 4;
    assert |ZKey(metric)| == |metric| + 8;
    assert |OutlierKey(metric)| == |metric| + 11;
  }

  /** An option is flagged only when its own metric is present, the spread
      is positive and its z-score exceeds the threshold. */
  lemma OutlierNeedsLargeZ(opts: seq<Object>, metric: string, threshold: real,
                           moments: seq<real> -> (real, real), i: nat)
    requires DetectOutliers(opts, metric, threshold, moments).Ok? && i < |opts|
    requires DetectOutliers(opts, metric, threshold, moments).value[i][OutlierKey(metric)] == Bool(true)
    ensures MetricValue(opts[i], metric).value.Some?
    ensures var std := moments(MetricValues(opts, metric).value).1; std > 0.0
    ensures |MetricValues(opts, metric).value| >= 3
    ensures Abs((MetricValue(opts[i], metric).value.value - moments(MetricValues(opts, metric).value).0)
                / moments(MetricValues(opts, metric).value).1) > threshold
  {
  }

  // ------------------------------------------------------------------ score

  function ViolationPoints(pct: real, isViolation: bool): (p: int)
    ensures p == 50 <==> isViolation && Abs(pct) >= 5.0
    ensures p == 40 <==> isViolation && 3.0 <= Abs(pct) < 5.0
    ensures p == 30 <==> isViolation && 2.0 <= Abs(pct) < 3.0
    ensures p == 0 <==> !isViolation || Abs(pct) < 2.0
  {
    if !isViolation then 0
    else if Abs(pct) >= 5.0 then 50
    else if Abs(pct) >= 3.0 then 40
    else if Abs(pct) >= 2.0 then 30
    else 0
  }

  function IvPoints(z: real, isOutlier: bool): (p: int)
    ensures p == 30 <==> isOutlier && Abs(z) >= 3.0
    ensures p == 20 <==> isOutlier && 2.5 <= Abs(z) < 3.0
    ensures p == 15 <==> isOutlier && 2.0 <= Abs(z) < 2.5
    ensures p == 0 <==> !isOutlier || Abs(z) < 2.0
  {
    if !isOutlier then 0
    else if Abs(z) >= 3.0 then 30
    else if Abs(z) >= 2.5 then 20
    else if Abs(z) >= 2.0 then 15
    else 0
  }

  function VolumePoints(volume: int): (p: int)
    ensures p == 10 <==> volume >= 500
    ensures p == 5 <==> 200 <= volume < 500
    ensures p == 0 <==> volume < 200
  {
    if volume >= 500 then 10 else if volume >= 200 then 5 else 0
  }

  function MoneynessPoints(moneyness: real): (p: int)
    ensures p == 10 <==> 0.95 <= moneyness <= 1.05
    ensures p == 5 <==> 0.90 <= moneyness <= 1.10 && !(0.95 <= moneyness <= 1.05)
    ensures p == 0 <==> !(0.90 <= moneyness <= 1.10)
  {
    if 0.95 <= moneyness <= 1.05 then 10
    else if 0.90 <= moneyness <= 1.10 then 5
    else 0
  }

  /** `calculate_opportunity_score` of the parity scanner. */
  function OpportunityScore(pct: real, isViolation: bool, z: real, isOutlier: bool,
                            volume: int, moneyness: real): (r: int)
    ensures 0 <= r <= 100
  {
    Min(ViolationPoints(pct, isViolation) + IvPoints(z, isOutlier) + VolumePoints(volume)
        + MoneynessPoints(moneyness), 100)
  }

  /** The cap at 100 never binds: the four parts add up to at most 100. */
  lemma ScoreIsUncappedSum(pct: real, isViolation: bool, z: real, isOutlier: bool, volume: int, moneyness: real)
    ensures OpportunityScore(pct, isViolation, z, isOutlier, volume, moneyness)
         == ViolationPoints(pct, isViolation) + IvPoints(z, isOutlier) + VolumePoints(volume) + MoneynessPoints(moneyness)
  {
  }

  /** With the classifier's default 2% threshold or any higher one, a
      flagged violation always earns violation points, and only a flagged
      violation does. */
  lemma FlaggedViolationsScore(call: real, put: real, stock: real, strike: real, discount: real, threshold: real)
    requires threshold >= 0.02
    ensures var v := Classify(call, put, stock, strike, discount, threshold);
      ViolationPoints(v.pct, v.isViolation) >= 30 <==> v.isViolation
  {
  }

  /** An outlier flagged by the detector with threshold 2 or more always
      earns IV points. */
  lemma FlaggedOutliersScore(opts: seq<Object>, metric: string, threshold: real,
                             moments: seq<real> -> (real, real), i: nat)
    requires threshold >= 2.0
    requires DetectOutliers(opts, metric, threshold, moments).Ok? && i < |opts|
    requires DetectOutliers(opts, metric, threshold, moments).value[i][ZKey(metric)].Float?
    requires DetectOutliers(opts, metric, threshold, moments).value[i][OutlierKey(metric)] == Bool(true)
    ensures var out := DetectOutliers(opts, metric, threshold, moments).value[i];
      IvPoints(out[ZKey(metric)].f, true) >= 15
  {
    OutlierNeedsLargeZ(opts, metric, threshold, moments, i);
  }
}
