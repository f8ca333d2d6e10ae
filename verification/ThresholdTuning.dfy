/**
 * Offline tuning of a score threshold: a search over finitely many candidates
 * whose result is optimal over the whole interval [0, 1].
 */
module ThresholdTuning {

  datatype Sample = Sample(score: real, truth: bool)

  datatype Metrics = Metrics(precision: real, recall: real, f1: real)

  datatype Recommendation = Recommendation(
    threshold: real, precision: real, recall: real, f1: real, accepting: bool, reasonCode: string, confidence: string)

  datatype Error = UnsupportedSchema | NoSamples

  datatype Report = Tuned(recommendation: Recommendation, readiness: string) | Failure(error: Error)

  // ----- metrics of a threshold -----

  /** How many of the first `k` samples are predicted positive, or not, with the given label. */
  function Count(ss: seq<Sample>, t: real, predicted: bool, truth: bool, k: nat): nat
    requires k <= |ss|
  {
    if k == 0 then 0
    else Count(ss, t, predicted, truth, k - 1) +
         (if (ss[k - 1].score >= t) == predicted && ss[k - 1].truth == truth then 1 else 0)
  }

  function TruePositives(ss: seq<Sample>, t: real): nat { Count(ss, t, true, true, |ss|) }

  function FalsePositives(ss: seq<Sample>, t: real): nat { Count(ss, t, true, false, |ss|) }

  function FalseNegatives(ss: seq<Sample>, t: real): nat { Count(ss, t, false, true, |ss|) }

  function Ratio(part: real, rest: real): real
    requires part >= 0.0 && rest >= 0.0
  {
    if part + rest > 0.0 then part / (part + rest) else 0.0
  }

  function FromCounts(tp: nat, fp: nat, fn: nat): Metrics {
    var p := Ratio(tp as real, fp as real);
    var r := Ratio(tp as real, fn as real);
    Metrics(p, r, if p + r > 0.0 then 2.0 * p * r / (p + r) else 0.0)
  }

  function Measure(ss: seq<Sample>, t: real): Metrics {
    FromCounts(TruePositives(ss, t), FalsePositives(ss, t), FalseNegatives(ss, t))
  }

  method CalcMetrics(ss: seq<Sample>, t: real) returns (m: Metrics)
    ensures m == Measure(ss, t)
  {
    var tp, fp, fn := 0, 0, 0;
    for i := 0 to |ss|
      invariant tp == Count(ss, t, true, true, i) && fp == Count(ss, t, true, false, i)
      invariant fn == Count(ss, t, false, true, i)
    {
      var positive := ss[i].score >= t;
      if positive && ss[i].truth { tp := tp + 1; }
      if positive && !ss[i].truth { fp := fp + 1; }
      if !positive && ss[i].truth { fn := fn + 1; }
    }
    m := FromCounts(tp, fp, fn);
  }

  /** F1 as the harmonic mean is the usual quotient of counts, and lies between 0 and 1. */
  lemma F1IsQuotient(tp: nat, fp: nat, fn: nat)
    ensures var f := FromCounts(tp, fp, fn).f1;
      (tp > 0 ==>
         f == (2.0 * tp as real) / ((tp + fp) as real + (tp + fn) as real)) && (tp == 0 ==> f == 0.0) && 0.0 <= f <= 1.0
  {
    if tp > 0 {
      HarmonicMean(tp as real, tp as real + fp as real, tp as real + fn as real);
    } else {
      assert Ratio(tp as real, fp as real) == 0.0 && Ratio(tp as real, fn as real) == 0.0;
    }
  }

  lemma HarmonicMean(x: real, a: real, b: real)
    requires 0.0 < x <= a && x <= b
    ensures var p, r := x / a, x / b;
      p + r > 0.0 && 2.0 * p * r / (p + r) == 2.0 * x / (a + b) && 0.0 <= 2.0 * x / (a + b) <= 1.0
  {
    var p, r := x / a, x / b;
    Undivide(x, a);
    Undivide(x, b);
    MeanIdentity(p, r, a, b, x);
    var n := 2.0 * p * r;
    DoubleProduct(p, r);
    Twice(p * r, a + b, x, p + r);
    CrossDivide(n, p + r, 2.0 * x, a + b, 2.0 * (p * r));
    BelowOne(2.0 * x, a + b);
  }

  lemma Twice(u: real, v: real, w: real, z: real)
    requires u * v == w * z
    ensures (2.0 * u) * v == (2.0 * w) * z
  {
  }

  lemma Undivide(x: real, a: real)
    requires x > 0.0 && a > 0.0
    ensures (x / a) * a == x && x / a > 0.0
  {
  }

  lemma DoubleProduct(p: real, r: real)
    ensures 2.0 * p * r == 2.0 * (p * r)
  {
  }

  lemma MeanIdentity(p: real, r: real, a: real, b: real, x: real)
    requires p * a == x && r * b == x
    ensures (p * r) * (a + b) == x * (p + r)
  {
    var q := p * r;
    assert q * (a + b) == q * a + q * b;
    assert q * a == r * (p * a);
    assert q * b == p * (r * b);
    assert x * (p + r) == x * p + x * r;
  }

  lemma CrossDivide(n: real, d: real, m: real, e: real, h: real)
    requires d > 0.0 && e > 0.0 && n == h && h * e == m * d
    ensures n / d == m / e
  {
    var q := m / e;
    assert q * e == m;
    assert m * d == (q * d) * e;
    Cancel(n, q * d, e);
  }

  lemma Cancel(a: real, b: real, e: real)
    requires e > 0.0 && a * e == b * e
    ensures a == b
  {
    assert (a - b) * e == 0.0;
  }

  lemma BelowOne(n: real, d: real)
    requires 0.0 <= n <= d && d > 0.0
    ensures 0.0 <= n / d <= 1.0
  {
  }

  // ----- candidates -----

  function Clamp(x: real): real { if x < 0.0 then 0.0 else if x > 1.0 then 1.0 else x }

  predicate Sorted(s: seq<real>) { forall i, j :: 0 <= i < j < |s| ==> s[i] <= s[j] }

  /** Exactly the clamped scores, zero and one. */
  ghost predicate IsCandidate(ss: seq<Sample>, t: real) {
    t == 0.0 || t == 1.0 || exists i :: 0 <= i < |ss| && Clamp(ss[i].score) == t
  }

  function Insert(s: seq<real>, x: real): seq<real> {
    if s == [] then [x] else if x <= s[0] then [x] + s else [s[0]] + Insert(s[1..], x)
  }

  lemma {:induction false} InsertElements(s: seq<real>, x: real)
    ensures multiset(Insert(s, x)) == multiset(s) + multiset{x}
  {
    if s != [] {
      assert s == [s[0]] + s[1..];
      InsertElements(s[1..], x);
    }
  }

  predicate AtLeast(s: seq<real>, low: real) { forall i :: 0 <= i < |s| ==> low <= s[i] }

  lemma {:induction false} InsertAbove(s: seq<real>, x: real, low: real)
    requires AtLeast(s, low) && low <= x
    ensures AtLeast(Insert(s, x), low)
  {
    if s != [] { InsertAbove(s[1..], x, low); }
  }

  lemma SortedCons(x: real, s: seq<real>)
    requires Sorted(s) && AtLeast(s, x)
    ensures Sorted([x] + s)
  {
  }

  lemma {:induction false} InsertSorted(s: seq<real>, x: real)
    requires Sorted(s)
    ensures Sorted(Insert(s, x))
  {
    if s != [] {
      if x <= s[0] {
        SortedCons(x, s);
      } else {
        InsertSorted(s[1..], x);
        InsertAbove(s[1..], x, s[0]);
        SortedCons(s[0], Insert(s[1..], x));
      }
    }
  }

  method SortFloats(xs: seq<real>) returns (s: seq<real>)
    ensures Sorted(s) && multiset(s) == multiset(xs)
    ensures forall y :: y in s <==> y in xs
  {
    s := [];
    for i := 0 to |xs|
      invariant Sorted(s) && multiset(s) == multiset(xs[..i])
    {
      InsertSorted(s, xs[i]);
      InsertElements(s, xs[i]);
      s := Insert(s, xs[i]);
      assert xs[..i + 1] == xs[..i] + [xs[i]];
    }
    assert xs[..|xs|] == xs;
    forall y ensures y in s <==> y in xs {
      assert y in s <==> y in multiset(s);
      assert y in xs <==> y in multiset(xs);
    }
  }

  method CollectThresholds(ss: seq<Sample>) returns (ts: seq<real>)
    ensures Sorted(ts) && forall t :: t in ts <==> IsCandidate(ss, t)
  {
    var seen: set<real> := {};
    var out: seq<real> := [];
    for i := 0 to |ss|
      invariant forall t :: t in seen <==> t in out
      invariant forall t :: t in out <==> exists j :: 0 <= j < i && Clamp(ss[j].score) == t
    {
      var score := ss[i].score;
      if score < 0.0 { score := 0.0; }
      if score > 1.0 { score := 1.0; }
      if score in seen { continue; }
      seen := seen + {score};
      out := out + [score];
    }
    out := out + [0.0, 1.0];
    ts := SortFloats(out);
  }

  // ----- a finite search covers the continuum -----

  lemma {:induction false} SamePredictions(ss: seq<Sample>, t: real, u: real, predicted: bool, truth: bool, k: nat)
    requires k <= |ss| && forall i :: 0 <= i < |ss| ==> (ss[i].score >= t <==> ss[i].score >= u)
    ensures Count(ss, t, predicted, truth, k) == Count(ss, u, predicted, truth, k)
  {
    if k > 0 { SamePredictions(ss, t, u, predicted, truth, k - 1); }
  }

  lemma {:induction false} LeastAbove(ts: seq<real>, t: real) returns (c: real)
    requires exists i :: 0 <= i < |ts| && ts[i] >= t
    ensures c in ts && c >= t && forall i :: 0 <= i < |ts| && ts[i] >= t ==> c <= ts[i]
    decreases |ts|
  {
    var n := |ts| - 1;
    if exists i :: 0 <= i < n && ts[i] >= t {
      var i :| 0 <= i < n && ts[i] >= t;
      assert ts[..n][i] >= t;
      c := LeastAbove(ts[..n], t);
      if t <= ts[n] < c { c := ts[n]; }
    } else {
      c := ts[n];
    }
  }

  /** Any threshold in [0, 1] predicts exactly like the next candidate at or above it. */
  lemma CandidateForThreshold(ss: seq<Sample>, ts: seq<real>, t: real) returns (c: real)
    requires 0.0 <= t <= 1.0 && forall u :: u in ts <==> IsCandidate(ss, u)
    ensures c in ts && Measure(ss, c) == Measure(ss, t)
  {
    assert IsCandidate(ss, 1.0);
    c := LeastAbove(ts, t);
    forall i | 0 <= i < |ss| ensures ss[i].score >= t <==> ss[i].score >= c {
      var x := Clamp(ss[i].score);
      assert IsCandidate(ss, x);
      assert x in ts;
    }
    SamePredictions(ss, t, c, true, true, |ss|);
    SamePredictions(ss, t, c, true, false, |ss|);
    SamePredictions(ss, t, c, false, true, |ss|);
  }

  // ----- tuning -----

  function Confidence(n: nat): string { if n >= 1000 then "high" else if n >= 300 then "medium" else "low" }

  function Readiness(n: nat): string {
    if n >= 1000 then "sufficient" else if n >= 300 then "limited" else "insufficient"
  }

  function Gate(x: real): real { if x <= 0.0 then 0.7 else x }

  /** The candidate of greatest F1, and the least of those. */
  method BestCandidate(ss: seq<Sample>, ts: seq<real>) returns (best: real, m: Metrics)
    requires |ts| > 0
    ensures best in ts && m == Measure(ss, best)
    ensures forall i :: 0 <= i < |ts| ==> Measure(ss, ts[i]).f1 <= m.f1
    ensures forall i :: 0 <= i < |ts| && Measure(ss, ts[i]).f1 == m.f1 ==> best <= ts[i]
  {
    best, m := 0.0, Metrics(0.0, 0.0, 0.0);
    var bestF1 := -1.0;
    for i := 0 to |ts|
      invariant i == 0 ==> bestF1 == -1.0
      invariant i > 0 ==> best in ts[..i] && m == Measure(ss, best) && bestF1 == m.f1
      invariant forall j :: 0 <= j < i ==> Measure(ss, ts[j]).f1 <= bestF1
      invariant forall j :: 0 <= j < i && Measure(ss, ts[j]).f1 == bestF1 ==> best <= ts[j]
    {
      var x := CalcMetrics(ss, ts[i]);
      F1IsQuotient(TruePositives(ss, ts[i]), FalsePositives(ss, ts[i]), FalseNegatives(ss, ts[i]));
      if x.f1 > bestF1 || (x.f1 == bestF1 && ts[i] < best) { best, m, bestF1 := ts[i], x, x.f1; }
    }
  }

  method RunThresholdTuning(schemaOk: bool, ss: seq<Sample>, minPrecision: real,
                            minRecall: real) returns (report: Report)
    ensures !schemaOk ==> report == Failure(UnsupportedSchema)
    ensures schemaOk && ss == [] ==> report == Failure(NoSamples)
    ensures schemaOk && ss != [] ==>
      report.Tuned? &&
      var r := report.recommendation;
      IsCandidate(ss, r.threshold) && Measure(ss, r.threshold) == Metrics(r.precision, r.recall, r.f1) &&
      (forall t: real :: 0.0 <= t <= 1.0 ==> Measure(ss, t).f1 <= r.f1) &&
      (forall t: real :: IsCandidate(ss, t) && Measure(ss, t).f1 == r.f1 ==> r.threshold <= t) &&
      r.accepting == (r.precision >= Gate(minPrecision) && r.recall >= Gate(minRecall)) &&
      r.reasonCode == (if r.accepting then "" else "quality_gate_not_met") &&
      r.confidence == Confidence(|ss|) && report.readiness == Readiness(|ss|)
  {
    if !schemaOk { return Failure(UnsupportedSchema); }
    if ss == [] { return Failure(NoSamples); }
    var ts := CollectThresholds(ss);
    assert IsCandidate(ss, 0.0) && 0.0 in ts;
    var best, m := BestCandidate(ss, ts);
    var accepting := m.precision >= Gate(minPrecision) && m.recall >= Gate(minRecall);
    var reason := if accepting then "" else "quality_gate_not_met";
    report := Tuned(Recommendation(best, m.precision, m.recall, m.f1, accepting, reason, Confidence(|ss|)),
                    Readiness(|ss|));
    forall t: real | 0.0 <= t <= 1.0 ensures Measure(ss, t).f1 <= m.f1 {
      var c := CandidateForThreshold(ss, ts, t);
    }
    forall t: real | IsCandidate(ss, t) && Measure(ss, t).f1 == m.f1 ensures best <= t {
      assert t in ts;
    }
  }
}
