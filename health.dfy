/**
 * `calculate_path_health_summary` of the primary exporter: which hops respond,
 * the end-to-end reference hop, the aggregates over responding hops, the
 * clamped health score and a status in which loss dominates.
 */
module Health {
  import opened Wrappers
  import opened Hops

  datatype Status = Excellent | Good | Fair | Poor | Critical

  function StatusName(s: Status): string
  {
    match s
    case Excellent => "EXCELLENT"
    case Good => "GOOD"
    case Fair => "FAIR"
    case Poor => "POOR"
    case Critical => "CRITICAL"
  }

  /** The summary dictionary; the empty dictionary `{}` is `None` in `Summarise`. */
  datatype Summary = Summary(
    hopCount: nat,
    validHops: nat,
    avgLoss: real,
    e2eRtt: real,
    e2eJitter: real,
    e2eLoss: real,
    avgJitter: real,
    maxJitter: real,
    rttVariance: real,
    rawScore: real,   // before `round(health_score, 1)`
    status: Status)

  // ---------------------------------------------------------------- sequences of reals

  function Sum(xs: seq<real>): real
  {
    if |xs| == 0 then 0.0 else Sum(xs[..|xs| - 1]) + xs[|xs| - 1]
  }

  function Max(xs: seq<real>): (m: real)
    requires |xs| > 0
    ensures forall i :: 0 <= i < |xs| ==> xs[i] <= m
    ensures m in xs
  {
    if |xs| == 1 then xs[0]
    else
      var m := Max(xs[..|xs| - 1]);
      assert xs == xs[..|xs| - 1] + [xs[|xs| - 1]];
      if xs[|xs| - 1] > m then xs[|xs| - 1] else m
  }

  function Min(xs: seq<real>): (m: real)
    requires |xs| > 0
    ensures forall i :: 0 <= i < |xs| ==> m <= xs[i]
    ensures m in xs
  {
    if |xs| == 1 then xs[0]
    else
      var m := Min(xs[..|xs| - 1]);
      assert xs == xs[..|xs| - 1] + [xs[|xs| - 1]];
      if xs[|xs| - 1] < m then xs[|xs| - 1] else m
  }

  function Min2(a: real, b: real): real
  {
    if a <= b then a else b
  }

  // ---------------------------------------------------------------- hops

  /** `valid_hops`: the hops with loss below 100, in order. */
  function ValidHops(hops: seq<Hop>): (v: seq<Hop>)
    ensures |v| <= |hops|
    ensures forall i :: 0 <= i < |v| ==> Responding(v[i])
  {
    if |hops| == 0 then []
    else
      var last := hops[|hops| - 1];
      ValidHops(hops[..|hops| - 1]) + (if Responding(last) then [last] else [])
  }

  /** The hops with loss of 100 or more. */
  function SilentHops(hops: seq<Hop>): (v: seq<Hop>)
    ensures forall i :: 0 <= i < |v| ==> !Responding(v[i])
  {
    if |hops| == 0 then []
    else
      var last := hops[|hops| - 1];
      SilentHops(hops[..|hops| - 1]) + (if Responding(last) then [] else [last])
  }

  /** The responding filter over a concatenation is the concatenation of the filters. */
  lemma {:induction false} ValidHopsAppend(a: seq<Hop>, b: seq<Hop>)
    ensures ValidHops(a + b) == ValidHops(a) + ValidHops(b)
    decreases |b|
  {
    if |b| == 0 {
      assert a + b == a;
    } else {
      var ab := a + b;
      assert ab[..|ab| - 1] == a + b[..|b| - 1];
      assert ab[|ab| - 1] == b[|b| - 1];
      ValidHopsAppend(a, b[..|b| - 1]);
    }
  }

  /** A single hop is kept exactly when it responds; with `ValidHopsAppend` this says
      every responding hop is kept, in order, and no other. */
  lemma ValidHopsOne(h: Hop)
    ensures ValidHops([h]) == if Responding(h) then [h] else []
  {
    assert [h][..0] == [];
  }

  /** The silent filter over a concatenation is the concatenation of the filters. */
  lemma {:induction false} SilentHopsAppend(a: seq<Hop>, b: seq<Hop>)
    ensures SilentHops(a + b) == SilentHops(a) + SilentHops(b)
    decreases |b|
  {
    if |b| == 0 {
      assert a + b == a;
    } else {
      var ab := a + b;
      assert ab[..|ab| - 1] == a + b[..|b| - 1];
      assert ab[|ab| - 1] == b[|b| - 1];
      SilentHopsAppend(a, b[..|b| - 1]);
    }
  }

  /** A single hop is kept exactly when it is silent; with `SilentHopsAppend` this says
      every silent hop is kept, in order, and no other. */
  lemma SilentHopsOne(h: Hop)
    ensures SilentHops([h]) == if Responding(h) then [] else [h]
  {
    assert [h][..0] == [];
  }

  function Losses(hops: seq<Hop>): seq<real>
  {
    seq(|hops|, i requires 0 <= i < |hops| => hops[i].loss)
  }

  function Jitters(hops: seq<Hop>): seq<real>
  {
    seq(|hops|, i requires 0 <= i < |hops| => hops[i].stddev)
  }

  function Rtts(hops: seq<Hop>): seq<real>
  {
    seq(|hops|, i requires 0 <= i < |hops| => hops[i].avg)
  }

  /** The hop the end-to-end figures come from: the last responding hop, or the
      last hop when none responds. */
  function Reference(hops: seq<Hop>): Hop
    requires |hops| > 0
  {
    var v := ValidHops(hops);
    if |v| == 0 then hops[|hops| - 1] else v[|v| - 1]
  }

  /** `max(rtts) - min(rtts)` over two or more responding hops, else 0. */
  function RttVariance(v: seq<Hop>): real
  {
    if |v| > 1 then Max(Rtts(v)) - Min(Rtts(v)) else 0.0
  }

  // ---------------------------------------------------------------- score and status

  /** `100 - loss*2 - min(jitter*0.5, 20) - min(rtt*0.1, 20) - min(variance*0.05, 10)` */
  function RawPenalty(loss: real, jitter: real, rtt: real, variance: real): real
  {
    100.0 - loss * 2.0 - Min2(jitter * 0.5, 20.0) - Min2(rtt * 0.1, 20.0) - Min2(variance * 0.05, 10.0)
  }

  /** `max(0, ...)`: the score is never negative. */
  function Score(loss: real, jitter: real, rtt: real, variance: real): real
  {
    var raw := RawPenalty(loss, jitter, rtt, variance);
    if raw > 0.0 then raw else 0.0
  }

  /** Loss above 50 is critical and above 10 poor, whatever the score; otherwise
      the score decides. */
  function StatusOf(loss: real, score: real): Status
  {
    if loss > 50.0 then Critical
    else if loss > 10.0 then Poor
    else if score >= 90.0 then Excellent
    else if score >= 75.0 then Good
    else if score >= 60.0 then Fair
    else Poor
  }

  /** `calculate_path_health_summary`; `None` is the empty dictionary for no hops. */
  function Summarise(hops: seq<Hop>): Option<Summary>
  {
    if |hops| == 0 then None
    else
      var v := ValidHops(hops);
      var ref := Reference(hops);
      var avgLoss := if |v| > 0 then Sum(Losses(v)) / (|v| as real) else 0.0;
      var avgJitter := if |v| > 0 then Sum(Jitters(v)) / (|v| as real) else ref.stddev;
      var maxJitter := if |v| > 0 then Max(Jitters(v)) else ref.stddev;
      var variance := RttVariance(v);
      var score := Score(ref.loss, ref.stddev, ref.avg, variance);
      Some(Summary(|hops|, |v|, avgLoss, ref.avg, ref.stddev, ref.loss, avgJitter, maxJitter,
                   variance, score, StatusOf(ref.loss, score)))
  }

  // ---------------------------------------------------------------- properties

  /** There is a summary exactly when there are hops; it counts all hops and the
      responding ones, and takes its end-to-end figures from the reference hop. */
  lemma SummaryShape(hops: seq<Hop>)
    ensures Summarise(hops).None? <==> |hops| == 0
    ensures |hops| > 0 ==>
      var s := Summarise(hops).value; var ref := Reference(hops);
      s.hopCount == |hops| && s.validHops == |ValidHops(hops)|
      && s.e2eLoss == ref.loss && s.e2eRtt == ref.avg && s.e2eJitter == ref.stddev
  {
  }

  /** Every hop is either responding or silent. */
  lemma {:induction false} Partition(hops: seq<Hop>)
    ensures |ValidHops(hops)| + |SilentHops(hops)| == |hops|
  {
    if |hops| > 0 {
      Partition(hops[..|hops| - 1]);
    }
  }

  /** A hop is kept by `ValidHops` exactly when it responds. */
  lemma {:induction false} ValidHopsMembers(hops: seq<Hop>, h: Hop)
    ensures h in ValidHops(hops) <==> h in hops && Responding(h)
  {
    if |hops| > 0 {
      var init := hops[..|hops| - 1];
      ValidHopsMembers(init, h);
      assert hops == init + [hops[|hops| - 1]];
    }
  }

  /** When some hop responds, the reference hop is the last responding hop of the path:
      every hop after it is silent. */
  lemma {:induction false} LastValid(hops: seq<Hop>)
    requires |ValidHops(hops)| > 0
    ensures exists j :: (0 <= j < |hops| && hops[j] == Reference(hops) && Responding(hops[j])
      && forall k :: j < k < |hops| ==> !Responding(hops[k]))
  {
    var init := hops[..|hops| - 1];
    var last := hops[|hops| - 1];
    if !Responding(last) {
      assert ValidHops(hops) == ValidHops(init);
      assert Reference(hops) == Reference(init);
      LastValid(init);
      var j :| (0 <= j < |init| && init[j] == Reference(init) && Responding(init[j])
        && forall k :: j < k < |init| ==> !Responding(init[k]));
      assert hops[j] == init[j];
      forall k | j < k < |hops|
        ensures !Responding(hops[k])
      {
        if k < |init| {
          assert hops[k] == init[k];
        }
      }
    } else {
      assert hops[|hops| - 1] == ValidHops(hops)[|ValidHops(hops)| - 1];
    }
  }

  /** With no responding hop, the reference is the last hop, and the jitter
      aggregates fall back to its jitter. */
  lemma NoResponder(hops: seq<Hop>)
    requires |hops| > 0 && |ValidHops(hops)| == 0
    ensures Reference(hops) == hops[|hops| - 1]
    ensures Summarise(hops).value.avgJitter == hops[|hops| - 1].stddev
    ensures Summarise(hops).value.maxJitter == hops[|hops| - 1].stddev
    ensures Summarise(hops).value.rttVariance == 0.0 && Summarise(hops).value.avgLoss == 0.0
  {
  }

  /** The RTT variance is never negative, and bounds the spread of responding RTTs. */
  lemma Variance(v: seq<Hop>)
    ensures RttVariance(v) >= 0.0
    ensures forall i, j :: 0 <= i < |v| && 0 <= j < |v| ==> v[i].avg - v[j].avg <= RttVariance(v)
  {
    if |v| > 1 {
      var r := Rtts(v);
      assert forall i :: 0 <= i < |v| ==> r[i] == v[i].avg;
    }
  }

  /** For non-negative inputs the score lies in [0, 100]. */
  lemma ScoreBounds(loss: real, jitter: real, rtt: real, variance: real)
    requires loss >= 0.0 && jitter >= 0.0 && rtt >= 0.0 && variance >= 0.0
    ensures 0.0 <= Score(loss, jitter, rtt, variance) <= 100.0
  {
  }

  /** The score does not rise when loss, jitter, RTT or variance rises. */
  lemma ScoreMonotone(loss: real, jitter: real, rtt: real, variance: real,
                      loss': real, jitter': real, rtt': real, variance': real)
    requires loss <= loss' && jitter <= jitter' && rtt <= rtt' && variance <= variance'
    ensures Score(loss', jitter', rtt', variance') <= Score(loss, jitter, rtt, variance)
  {
  }

  /** The status rules in both directions. */
  lemma StatusRules(loss: real, score: real)
    ensures StatusOf(loss, score) == Critical <==> loss > 50.0
    ensures StatusOf(loss, score) == Poor <==> (10.0 < loss <= 50.0) || (loss <= 10.0 && score < 60.0)
    ensures StatusOf(loss, score) == Excellent <==> loss <= 10.0 && score >= 90.0
    ensures StatusOf(loss, score) == Good <==> loss <= 10.0 && 75.0 <= score < 90.0
    ensures StatusOf(loss, score) == Fair <==> loss <= 10.0 && 60.0 <= score < 75.0
  {
  }
}
