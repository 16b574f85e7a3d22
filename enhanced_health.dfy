/**
 * The earlier, "enhanced" exporter's `parse_mtr_data` and
 * `calculate_path_health_summary`.
 *
 * Its hop records keep every field exactly as the hub held it (no `int()` or
 * `float()`), so a field may be a Python `int` or `float`, and that type shows
 * through in what the renderer prints. Its path loss is the largest loss of any
 * hop, silent hops included; its end-to-end figures come from the last hop, and
 * its status follows from the score alone.
 */
module EnhancedHealth {
  import opened Wrappers
  import opened Hops
  import Normalise
  import Health

  /** A hop record of the enhanced exporter: the hub's values, unconverted. */
  datatype RawHop = RawHop(
    hop: Count,
    host: string,
    loss: Num,
    sent: Num,
    last: Num,
    avg: Num,
    best: Num,
    worst: Num,
    stddev: Num)

  function NumOr(n: Option<Num>, default: Num): Num
  {
    if n.Some? then n.value else default
  }

  /** `hub.get(key, default)` for every field. */
  function ToRawHop(h: Hub): RawHop
  {
    RawHop(if h.count.Some? then h.count.value else CInt(0),
           if h.host.Some? then h.host.value else "unknown",
           NumOr(h.loss, R(0.0)), NumOr(h.snt, I(0)), NumOr(h.last, R(0.0)), NumOr(h.avg, R(0.0)),
           NumOr(h.best, R(0.0)), NumOr(h.wrst, R(0.0)), NumOr(h.stdev, R(0.0)))
  }

  /** `parse_mtr_data`: no hops without `report` or `hubs`, otherwise one hop per hub,
      in order. */
  method ParseMtrData(d: MtrData) returns (hops: seq<RawHop>)
    ensures Normalise.HubsOf(d).None? ==> hops == []
    ensures Normalise.HubsOf(d).Some? ==> |hops| == |Normalise.HubsOf(d).value|
    ensures Normalise.HubsOf(d).Some? ==>
      forall i :: 0 <= i < |hops| ==> hops[i] == ToRawHop(Normalise.HubsOf(d).value[i])
  {
    hops := [];
    if d.report.None? || d.report.value.hubs.None? {
      return;
    }
    var hubs := d.report.value.hubs.value;
    for i := 0 to |hubs|
      invariant |hops| == i
      invariant forall j :: 0 <= j < i ==> hops[j] == ToRawHop(hubs[j])
    {
      hops := hops + [ToRawHop(hubs[i])];
    }
  }

  // ---------------------------------------------------------------- properties of the records

  /** Absent fields take the defaults: hop 0, host `unknown`, `Snt` the integer 0 and
      the other numbers the float 0.0. */
  lemma RawDefaults(h: Hub)
    requires h == Hub(None, None, None, None, None, None, None, None, None)
    ensures ToRawHop(h) == RawHop(CInt(0), "unknown", R(0.0), I(0), R(0.0), R(0.0), R(0.0), R(0.0), R(0.0))
  {
  }

  /** Present fields are kept as they are: a string `count` stays a string, where
      the primary exporter converts it to an integer. */
  lemma RawKeepsFields(h: Hub, s: string)
    requires h.count == Some(CStr(s)) && h.host.Some? && h.loss.Some? && h.snt.Some?
    ensures ToRawHop(h).hop == CStr(s)
    ensures ToRawHop(h).host == h.host.value
    ensures ToRawHop(h).loss == h.loss.value && ToRawHop(h).sent == h.snt.value
    ensures Normalise.ToHop(h).hop == Normalise.HopNumberOf(Some(CStr(s)))
  {
  }

  // ---------------------------------------------------------------- sequences of numbers

  /** Python's `max` over numbers: a largest element, the first one on ties. */
  function MaxNum(xs: seq<Num>): (m: Num)
    requires |xs| > 0
    ensures forall i :: 0 <= i < |xs| ==> NumReal(xs[i]) <= NumReal(m)
    ensures m in xs
  {
    if |xs| == 1 then xs[0]
    else
      var m := MaxNum(xs[..|xs| - 1]);
      assert xs == xs[..|xs| - 1] + [xs[|xs| - 1]];
      if NumReal(xs[|xs| - 1]) > NumReal(m) then xs[|xs| - 1] else m
  }

  /** Python's `min` over numbers: a smallest element, the first one on ties. */
  function MinNum(xs: seq<Num>): (m: Num)
    requires |xs| > 0
    ensures forall i :: 0 <= i < |xs| ==> NumReal(m) <= NumReal(xs[i])
    ensures m in xs
  {
    if |xs| == 1 then xs[0]
    else
      var m := MinNum(xs[..|xs| - 1]);
      assert xs == xs[..|xs| - 1] + [xs[|xs| - 1]];
      if NumReal(xs[|xs| - 1]) < NumReal(m) then xs[|xs| - 1] else m
  }

  /** `a - b`: an integer when both are integers, a float otherwise. */
  function NumSub(a: Num, b: Num): (r: Num)
    ensures r.I? <==> a.I? && b.I?
    ensures NumReal(r) == NumReal(a) - NumReal(b)
  {
    if a.I? && b.I? then I(a.i - b.i) else R(NumReal(a) - NumReal(b))
  }

  /** `x * 2`, keeping the type of `x`. */
  function NumDouble(a: Num): (r: Num)
    ensures r.I? <==> a.I?
    ensures NumReal(r) == NumReal(a) * 2.0
  {
    match a
    case I(i) => I(i * 2)
    case R(x) => R(x * 2.0)
  }

  /** `min(x, cap)` for a float `x` and an integer cap: the cap, an `int`, only when
      it is strictly smaller. */
  function MinCap(x: real, cap: int): (r: Num)
    ensures r.I? <==> (cap as real) < x
    ensures NumReal(r) == Health.Min2(x, cap as real)
  {
    if (cap as real) < x then I(cap) else R(x)
  }

  // ---------------------------------------------------------------- hops

  predicate Valid(h: RawHop)
  {
    NumReal(h.loss) < 100.0
  }

  /** `valid_hops`: the hops with loss below 100, in order. */
  function ValidHops(hops: seq<RawHop>): (v: seq<RawHop>)
    ensures |v| <= |hops|
    ensures forall i :: 0 <= i < |v| ==> Valid(v[i])
  {
    if |hops| == 0 then []
    else
      var last := hops[|hops| - 1];
      ValidHops(hops[..|hops| - 1]) + (if Valid(last) then [last] else [])
  }

  function RawLosses(hops: seq<RawHop>): seq<Num>
  {
    seq(|hops|, i requires 0 <= i < |hops| => hops[i].loss)
  }

  function RawJitters(hops: seq<RawHop>): seq<Num>
  {
    seq(|hops|, i requires 0 <= i < |hops| => hops[i].stddev)
  }

  function RawRtts(hops: seq<RawHop>): seq<Num>
  {
    seq(|hops|, i requires 0 <= i < |hops| => hops[i].avg)
  }

  function Reals(xs: seq<Num>): seq<real>
  {
    seq(|xs|, i requires 0 <= i < |xs| => NumReal(xs[i]))
  }

  /** `max(rtts) - min(rtts)` over two or more valid hops, else the float 0.0. */
  function RttVariance(v: seq<RawHop>): Num
  {
    if |v| > 1 then NumSub(MaxNum(RawRtts(v)), MinNum(RawRtts(v))) else R(0.0)
  }

  // ---------------------------------------------------------------- score and status

  /** `max(0, 100 - loss*2 - min(jitter*0.5, 20) - min(rtt*0.1, 20) - min(variance*0.05, 10))`
      with Python's types: the result is the integer 0 unless the difference is
      positive, and an integer only when every term is one. */
  function ScoreOf(total: Num, jitter: Num, rtt: Num, variance: Num): Num
  {
    var lp := NumDouble(total);
    var jp := MinCap(NumReal(jitter) * 0.5, 20);
    var rp := MinCap(NumReal(rtt) * 0.1, 20);
    var vp := MinCap(NumReal(variance) * 0.05, 10);
    var raw := 100.0 - NumReal(lp) - NumReal(jp) - NumReal(rp) - NumReal(vp);
    if raw > 0.0 then
      if lp.I? && jp.I? && rp.I? && vp.I? then I(100 - lp.i - jp.i - rp.i - vp.i) else R(raw)
    else I(0)
  }

  /** The status follows from the score alone. */
  function StatusOfScore(score: real): Health.Status
  {
    if score >= 90.0 then Health.Excellent
    else if score >= 75.0 then Health.Good
    else if score >= 60.0 then Health.Fair
    else if score >= 40.0 then Health.Poor
    else Health.Critical
  }

  /** The summary dictionary; `round(health_score, 1)` is left to the renderer. */
  datatype Summary = Summary(
    hopCount: nat,
    validHops: nat,
    totalLoss: Num,
    avgLoss: real,
    e2eRtt: Num,
    e2eJitter: Num,
    avgJitter: real,
    maxJitter: Num,
    rttVariance: Num,
    score: Num,
    status: Health.Status)

  /** `calculate_path_health_summary`; `None` is `{}`, for no hops and for no valid hop. */
  function Summarise(hops: seq<RawHop>): Option<Summary>
  {
    if |hops| == 0 then None
    else
      var v := ValidHops(hops);
      if |v| == 0 then None
      else
        var last := hops[|hops| - 1];
        var total := MaxNum(RawLosses(hops));
        var avgLoss := Health.Sum(Reals(RawLosses(v))) / (|v| as real);
        var avgJitter := Health.Sum(Reals(RawJitters(v))) / (|v| as real);
        var variance := RttVariance(v);
        var score := ScoreOf(total, last.stddev, last.avg, variance);
        Some(Summary(|hops|, |v|, total, avgLoss, last.avg, last.stddev, avgJitter,
                     MaxNum(RawJitters(v)), variance, score, StatusOfScore(NumReal(score))))
  }

  // ---------------------------------------------------------------- properties of the summary

  /** The filter over a concatenation is the concatenation of the filters. */
  lemma {:induction false} ValidHopsAppend(a: seq<RawHop>, b: seq<RawHop>)
    ensures ValidHops(a + b) == ValidHops(a) + ValidHops(b)
    decreases |b|
  {
    if |b| == 0 {
      assert a + b == a;
    } else {
      var ab := a + b;
      assert ab[..|ab| - 1] == a + b[..|b| - 1];
      assert ab[|ab| - 1] == b[|b| - 1];
      ValidHopsAppend(a, b[..|b| - 1]);
    }
  }

  /** A single hop is kept exactly when its loss is below 100; with `ValidHopsAppend`
      this says every such hop is kept, in order, and no other. */
  lemma ValidHopsOne(h: RawHop)
    ensures ValidHops([h]) == if Valid(h) then [h] else []
  {
    assert [h][..0] == [];
  }

  /** Some hop is kept exactly when some hop has loss below 100. */
  lemma {:induction false} AnyValid(hops: seq<RawHop>)
    ensures |ValidHops(hops)| > 0 <==> exists i :: 0 <= i < |hops| && Valid(hops[i])
  {
    if |hops| > 0 {
      var init := hops[..|hops| - 1];
      AnyValid(init);
      assert forall i :: 0 <= i < |init| ==> init[i] == hops[i];
      if !Valid(hops[|hops| - 1]) {
        assert (exists i :: 0 <= i < |hops| && Valid(hops[i])) ==> exists i :: 0 <= i < |init| && Valid(init[i]);
      }
    }
  }

  /** `{}` exactly when there are no hops or no hop has loss below 100. */
  lemma SummaryExists(hops: seq<RawHop>)
    ensures Summarise(hops).Some? <==> |hops| > 0 && |ValidHops(hops)| > 0
    ensures Summarise(hops).Some? <==> exists i :: 0 <= i < |hops| && Valid(hops[i])
  {
    AnyValid(hops);
  }

  /** `xs[k]` is `m`, and every element before position `k` compares strictly `below` it. */
  ghost predicate FirstAt(xs: seq<Num>, k: int, m: Num, below: bool)
  {
    0 <= k < |xs| && xs[k] == m &&
    forall j :: 0 <= j < k ==> (if below then NumReal(xs[j]) < NumReal(m) else NumReal(m) < NumReal(xs[j]))
  }

  /** A first position of `m` in `init` stays one in `init + [last]`. */
  lemma FirstAtExtend(init: seq<Num>, last: Num, k: int, m: Num, below: bool)
    requires FirstAt(init, k, m, below)
    ensures FirstAt(init + [last], k, m, below)
  {
    assert forall j :: 0 <= j < |init| ==> (init + [last])[j] == init[j];
  }

  /** The last position is a first one when everything before it is strictly beyond `m`. */
  lemma FirstAtLast(init: seq<Num>, last: Num, below: bool)
    requires forall j :: 0 <= j < |init| ==>
      (if below then NumReal(init[j]) < NumReal(last) else NumReal(last) < NumReal(init[j]))
    ensures FirstAt(init + [last], |init|, last, below)
  {
    assert forall j :: 0 <= j < |init| ==> (init + [last])[j] == init[j];
  }

  /** `max` returns the first largest element: every element before it is smaller. */
  lemma {:induction false} MaxNumFirst(xs: seq<Num>)
    requires |xs| > 0
    ensures exists k :: FirstAt(xs, k, MaxNum(xs), true)
  {
    if |xs| == 1 {
      assert FirstAt(xs, 0, MaxNum(xs), true);
    } else {
      var init, last := xs[..|xs| - 1], xs[|xs| - 1];
      assert xs == init + [last];
      MaxNumFirst(init);
      var k :| FirstAt(init, k, MaxNum(init), true);
      if NumReal(last) > NumReal(MaxNum(init)) {
        FirstAtLast(init, last, true);
        assert FirstAt(xs, |init|, MaxNum(xs), true);
      } else {
        FirstAtExtend(init, last, k, MaxNum(init), true);
        assert FirstAt(xs, k, MaxNum(xs), true);
      }
    }
  }

  /** `min` returns the first smallest element: every element before it is larger. */
  lemma {:induction false} MinNumFirst(xs: seq<Num>)
    requires |xs| > 0
    ensures exists k :: FirstAt(xs, k, MinNum(xs), false)
  {
    if |xs| == 1 {
      assert FirstAt(xs, 0, MinNum(xs), false);
    } else {
      var init, last := xs[..|xs| - 1], xs[|xs| - 1];
      assert xs == init + [last];
      MinNumFirst(init);
      var k :| FirstAt(init, k, MinNum(init), false);
      if NumReal(last) < NumReal(MinNum(init)) {
        FirstAtLast(init, last, false);
        assert FirstAt(xs, |init|, MinNum(xs), false);
      } else {
        FirstAtExtend(init, last, k, MinNum(init), false);
        assert FirstAt(xs, k, MinNum(xs), false);
      }
    }
  }


  /** The path loss is the largest loss of any hop, silent ones included; the
      end-to-end RTT and jitter are the last hop's, whether or not it responds. */
  lemma SummaryFigures(hops: seq<RawHop>)
    requires Summarise(hops).Some?
    ensures var s := Summarise(hops).value; var last := hops[|hops| - 1];
      && s.hopCount == |hops| && s.validHops == |ValidHops(hops)|
      && s.e2eRtt == last.avg && s.e2eJitter == last.stddev
      && (forall i :: 0 <= i < |hops| ==> NumReal(hops[i].loss) <= NumReal(s.totalLoss))
      && (exists i :: 0 <= i < |hops| && s.totalLoss == hops[i].loss)
  {
    var r := RawLosses(hops);
    var m := MaxNum(r);
    assert forall i :: 0 <= i < |hops| ==> r[i] == hops[i].loss;
    var k :| 0 <= k < |r| && r[k] == m;
  }

  /** The score is the primary exporter's penalty formula applied to the path loss,
      the last hop's jitter and RTT and the variance, clamped at 0; the status is
      read off that score. */
  lemma ScoreValue(hops: seq<RawHop>)
    requires Summarise(hops).Some?
    ensures var s := Summarise(hops).value;
      var raw := Health.RawPenalty(NumReal(s.totalLoss), NumReal(s.e2eJitter), NumReal(s.e2eRtt), NumReal(s.rttVariance));
      && NumReal(s.score) == (if raw > 0.0 then raw else 0.0)
      && s.status == StatusOfScore(NumReal(s.score))
  {
  }

  /** The variance is never negative. */
  lemma VarianceNonNegative(v: seq<RawHop>)
    ensures NumReal(RttVariance(v)) >= 0.0
  {
    if |v| > 1 {
      var r := RawRtts(v);
      assert MaxNum(r) in r;
      assert NumReal(MinNum(r)) <= NumReal(MaxNum(r));
    }
  }

  /** Loss, RTT and jitter are not negative on any hop. */
  predicate NonNegative(hops: seq<RawHop>)
  {
    forall i :: 0 <= i < |hops| ==>
      NumReal(hops[i].loss) >= 0.0 && NumReal(hops[i].avg) >= 0.0 && NumReal(hops[i].stddev) >= 0.0
  }

  /** The score is never negative, and at most 100 for non-negative measurements. */
  lemma ScoreClamped(hops: seq<RawHop>)
    requires Summarise(hops).Some?
    ensures NumReal(Summarise(hops).value.score) >= 0.0
    ensures NonNegative(hops) ==> NumReal(Summarise(hops).value.score) <= 100.0
  {
    ScoreValue(hops);
    SummaryFigures(hops);
    VarianceNonNegative(ValidHops(hops));
  }

  /** Any hop at 50% loss or more, silent hops included, so in particular a hop at 100%,
      forces the score to the integer 0 and the status to CRITICAL, when the last
      hop's RTT and jitter are not negative. */
  lemma HeavyLossCritical(hops: seq<RawHop>, i: int)
    requires Summarise(hops).Some? && 0 <= i < |hops| && NumReal(hops[i].loss) >= 50.0
    requires NumReal(hops[|hops| - 1].avg) >= 0.0 && NumReal(hops[|hops| - 1].stddev) >= 0.0
    ensures Summarise(hops).value.score == I(0)
    ensures Summarise(hops).value.status == Health.Critical
  {
    SummaryFigures(hops);
    VarianceNonNegative(ValidHops(hops));
  }

  /** The status rules, in both directions, on the score alone. */
  lemma StatusRules(score: real)
    ensures StatusOfScore(score) == Health.Excellent <==> score >= 90.0
    ensures StatusOfScore(score) == Health.Good <==> 75.0 <= score < 90.0
    ensures StatusOfScore(score) == Health.Fair <==> 60.0 <= score < 75.0
    ensures StatusOfScore(score) == Health.Poor <==> 40.0 <= score < 60.0
    ensures StatusOfScore(score) == Health.Critical <==> score < 40.0
  {
  }
}
