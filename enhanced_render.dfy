/**
 * `build_labels` and `generate_prometheus_metrics` of the enhanced exporter.
 *
 * Every family is written as a `# HELP` line, a `# TYPE` line, its series and an
 * empty separator line. Per-hop series are written for every hop, responding or
 * not, and label values are written as given, without cleaning.
 *
 * The output is modelled as a list of exposition lines, naming their family and
 * label set, each then formatted by its f-string. Values are printed with Python's `str()`: integers exactly, floats
 * through the parameter `repr`, which stands for Python's shortest round-trip
 * float formatting.
 */
module EnhancedRender {
  import opened Wrappers
  import opened Text
  import opened Numbers
  import opened Hops
  import opened Labels
  import opened Render
  import opened EnhancedHealth

  /** The exporter's settings that reach its output; `timestamp` is the
      `int(time.time() * 1000)` taken when the exporter was created. */
  datatype Settings = Settings(custom: Dict, target: string, probe: string, port: int, timestamp: int)

  /** The metric families, in the order they are written. */
  datatype Metric =
    | Info | HealthScore | RttVariance | AvgJitter | MaxJitter | TotalLoss
    | PerHop(family: Family) | HopCount | EndToEndLoss | EndToEndRtt | EndToEndJitter | LastRun

  /** The labels of a series: `build_labels()`, the same with the port appended, or
      `build_labels()` with a hop's own labels. */
  datatype LabelSet = BaseSet | InfoSet | HopSet(hop: RawHop)

  /** One line of the output, before formatting. */
  datatype Line =
    | Help(metric: Metric)
    | TypeOf(metric: Metric)
    | Sample(metric: Metric, labels: LabelSet, value: Num)
    | Blank

  function MetricName(m: Metric): string
  {
    match m
    case Info => "mtr_info"
    case HealthScore => "mtr_path_health_score"
    case RttVariance => "mtr_path_rtt_variance_ms"
    case AvgJitter => "mtr_path_avg_jitter_ms"
    case MaxJitter => "mtr_path_max_jitter_ms"
    case TotalLoss => "mtr_path_total_loss_percent"
    case PerHop(f) => FamilyName(f)
    case HopCount => "mtr_hop_count"
    case EndToEndLoss => "mtr_end_to_end_loss_percent"
    case EndToEndRtt => "mtr_end_to_end_avg_rtt_ms"
    case EndToEndJitter => "mtr_end_to_end_jitter_ms"
    case LastRun => "mtr_last_run_timestamp_ms"
  }

  function MetricHelp(m: Metric): string
  {
    match m
    case Info => "MTR trace information"
    case HealthScore => "Overall path health score (0-100, higher is better)"
    case RttVariance => "RTT variance across the path"
    case AvgJitter => "Average jitter across all valid hops"
    case MaxJitter => "Maximum jitter across all valid hops"
    case TotalLoss => "Maximum packet loss percentage along the path"
    case PerHop(f) => FamilyHelp(f)
    case HopCount => "Total number of hops to target"
    case EndToEndLoss => "End-to-end packet loss percentage"
    case EndToEndRtt => "End-to-end average round trip time"
    case EndToEndJitter => "End-to-end jitter"
    case LastRun => "Timestamp of last MTR run"
  }

  /** Packets sent is a counter, every other family a gauge. */
  function MetricKind(m: Metric): string
  {
    if m == PerHop(Sent) then "counter" else "gauge"
  }


  /** `str(hop['hop'])`: a string `count` is written as it is. */
  function CountText(c: Count): string
  {
    match c
    case CInt(i) => IntToString(i)
    case CStr(s) => s
  }

  /** `round(x, 1)`: an integer stays as it is. */
  function Round1(n: Num): Num
  {
    match n
    case I(i) => I(i)
    case R(r) => R(RoundTo(r, 1))
  }

  /** `build_labels()`, unsanitised. */
  function Base(s: Settings): string
  {
    LabelText(Merge(s.custom, s.target, s.probe, []))
  }

  /** The extra labels of a per-hop series. */
  function RawExtra(h: RawHop): Dict
  {
    [("hop", CountText(h.hop)), ("host", h.host)]
  }

  function HopLabelSet(s: Settings, h: RawHop): Dict
  {
    Merge(s.custom, s.target, s.probe, RawExtra(h))
  }

  function LabelString(s: Settings, l: LabelSet): string
  {
    match l
    case BaseSet => Base(s)
    case InfoSet => Base(s) + ",port=\"" + IntToString(s.port) + "\""
    case HopSet(h) => LabelText(HopLabelSet(s, h))
  }

  /** The f-string that writes a line. */
  function LineText(s: Settings, repr: real -> string, l: Line): string
  {
    match l
    case Help(m) => "# HELP " + MetricName(m) + " " + MetricHelp(m)
    case TypeOf(m) => "# TYPE " + MetricName(m) + " " + MetricKind(m)
    case Sample(m, labels, value) => MetricLine(MetricName(m), LabelString(s, labels), NumText(repr, value))
    case Blank => ""
  }

  function Texts(s: Settings, repr: real -> string, lines: seq<Line>): (r: seq<string>)
    ensures |r| == |lines|
  {
    seq(|lines|, i requires 0 <= i < |lines| => LineText(s, repr, lines[i]))
  }

  /** A gauge with a single series, then the separator. */
  function Gauge(m: Metric, labels: LabelSet, value: Num): (r: seq<Line>)
    ensures |r| == 4 && r[2] == Sample(m, labels, value) && r[3] == Blank
  {
    [Help(m), TypeOf(m), Sample(m, labels, value), Blank]
  }

  const InfoBlock: seq<Line> := Gauge(Info, InfoSet, I(1))

  /** The five path-health gauges. */
  function SummaryBlocks(sm: Summary): (r: seq<Line>)
    ensures |r| == 20
  {
    Gauge(HealthScore, BaseSet, Round1(sm.score)) + Gauge(RttVariance, BaseSet, sm.rttVariance)
    + Gauge(AvgJitter, BaseSet, R(sm.avgJitter)) + Gauge(MaxJitter, BaseSet, sm.maxJitter)
    + Gauge(TotalLoss, BaseSet, sm.totalLoss)
  }

  function FamilyHelp(f: Family): string
  {
    match f
    case Loss => "Packet loss percentage per hop"
    case Sent => "Total packets sent per hop"
    case LastRtt => "Last round trip time in milliseconds"
    case AvgRtt => "Average round trip time in milliseconds"
    case BestRtt => "Best round trip time in milliseconds"
    case WorstRtt => "Worst round trip time in milliseconds"
    case Jitter => "Jitter (standard deviation) in milliseconds"
  }

  /** The hop field a family shows, as the hub held it. */
  function RawValue(f: Family, h: RawHop): Num
  {
    match f
    case Loss => h.loss
    case Sent => h.sent
    case LastRtt => h.last
    case AvgRtt => h.avg
    case BestRtt => h.best
    case WorstRtt => h.worst
    case Jitter => h.stddev
  }

  function Row(f: Family, h: RawHop): Line
  {
    Sample(PerHop(f), HopSet(h), RawValue(f, h))
  }

  /** One series per hop, in order. */
  function Rows(f: Family, hops: seq<RawHop>): (r: seq<Line>)
    ensures |r| == |hops|
  {
    seq(|hops|, i requires 0 <= i < |hops| => Row(f, hops[i]))
  }

  /** A per-hop family: its two header lines, its series and the separator. */
  function Block(f: Family, hops: seq<RawHop>): (r: seq<Line>)
    ensures |r| == |hops| + 3
  {
    [Help(PerHop(f)), TypeOf(PerHop(f))] + Rows(f, hops) + [Blank]
  }

  function PerHopBlocks(hops: seq<RawHop>): (r: seq<Line>)
    ensures |r| == 7 * (|hops| + 3)
  {
    Block(Loss, hops) + Block(Sent, hops) + Block(LastRtt, hops) + Block(AvgRtt, hops)
    + Block(BestRtt, hops) + Block(WorstRtt, hops) + Block(Jitter, hops)
  }

  /** The hop count family: its series only when there are hops. */
  function HopCountBlock(hops: seq<RawHop>): (r: seq<Line>)
    ensures |r| == if |hops| > 0 then 4 else 3
  {
    [Help(HopCount), TypeOf(HopCount)]
    + (if |hops| > 0 then [Sample(HopCount, BaseSet, I(|hops|))] else [])
    + [Blank]
  }

  /** The end-to-end gauges, from the last hop, when there are hops. */
  function EndToEndBlocks(hops: seq<RawHop>): (r: seq<Line>)
    ensures |r| == if |hops| > 0 then 12 else 0
  {
    if |hops| == 0 then []
    else
      var last := hops[|hops| - 1];
      Gauge(EndToEndLoss, BaseSet, last.loss) + Gauge(EndToEndRtt, BaseSet, last.avg)
      + Gauge(EndToEndJitter, BaseSet, last.stddev)
  }

  function TimestampLine(s: Settings): Line
  {
    Sample(LastRun, BaseSet, I(s.timestamp))
  }

  /** The last family has no separator after it. */
  function TimestampBlock(s: Settings): (r: seq<Line>)
    ensures |r| == 3 && r[2] == TimestampLine(s)
  {
    [Help(LastRun), TypeOf(LastRun), TimestampLine(s)]
  }

  /** Lines before the per-hop families: 4 for `mtr_info`, 20 more with a summary. */
  function HeadLength(sm: Option<Summary>): nat
  {
    4 + (if sm.Some? then 20 else 0)
  }

  /** `mtr_info` and, when there is a summary, the path-health gauges. */
  function Head(sm: Option<Summary>): (r: seq<Line>)
    ensures |r| == HeadLength(sm)
  {
    InfoBlock + (if sm.Some? then SummaryBlocks(sm.value) else [])
  }

  /** The hop count, the end-to-end gauges and the timestamp. */
  function Tail(s: Settings, hops: seq<RawHop>): (r: seq<Line>)
    ensures |r| == 6 + (if |hops| > 0 then 13 else 0)
    ensures r[|r| - 1] == TimestampLine(s)
  {
    HopCountBlock(hops) + EndToEndBlocks(hops) + TimestampBlock(s)
  }

  /** Every line `generate_prometheus_metrics` emits, in order, given the path-health
      summary it computed from the same hops. */
  function Output(s: Settings, sm: Option<Summary>, hops: seq<RawHop>): seq<Line>
  {
    Head(sm) + PerHopBlocks(hops) + Tail(s, hops)
  }

  // ---------------------------------------------------------------- generate_prometheus_metrics

  /** `mtr_info` and, when there is a summary, the five path-health gauges. */
  method EmitHead(summary: Option<Summary>) returns (lines: seq<Line>)
    ensures lines == Head(summary)
  {
    lines := [Help(Info), TypeOf(Info), Sample(Info, InfoSet, I(1)), Blank];
    if summary.Some? {
      var sm := summary.value;
      lines := lines + [Help(HealthScore), TypeOf(HealthScore), Sample(HealthScore, BaseSet, Round1(sm.score)), Blank];
      lines := lines + [Help(RttVariance), TypeOf(RttVariance), Sample(RttVariance, BaseSet, sm.rttVariance), Blank];
      lines := lines + [Help(AvgJitter), TypeOf(AvgJitter), Sample(AvgJitter, BaseSet, R(sm.avgJitter)), Blank];
      lines := lines + [Help(MaxJitter), TypeOf(MaxJitter), Sample(MaxJitter, BaseSet, sm.maxJitter), Blank];
      lines := lines + [Help(TotalLoss), TypeOf(TotalLoss), Sample(TotalLoss, BaseSet, sm.totalLoss), Blank];
    }
  }

  /** One per-hop family: header, one series per hop, and the separator. */
  method EmitFamily(f: Family, hops: seq<RawHop>) returns (lines: seq<Line>)
    ensures lines == Block(f, hops)
  {
    lines := [Help(PerHop(f)), TypeOf(PerHop(f))];
    for i := 0 to |hops|
      invariant |lines| == 2 + i
      invariant lines[..2] == [Help(PerHop(f)), TypeOf(PerHop(f))]
      invariant forall j :: 0 <= j < i ==> lines[2 + j] == Row(f, hops[j])
    {
      lines := lines + [Sample(PerHop(f), HopSet(hops[i]), RawValue(f, hops[i]))];
    }
    lines := lines + [Blank];
  }

  /** The seven per-hop families in their fixed order. */
  method EmitPerHop(hops: seq<RawHop>) returns (lines: seq<Line>)
    ensures lines == PerHopBlocks(hops)
  {
    var loss := EmitFamily(Loss, hops);
    var sent := EmitFamily(Sent, hops);
    var last := EmitFamily(LastRtt, hops);
    var avg := EmitFamily(AvgRtt, hops);
    var best := EmitFamily(BestRtt, hops);
    var worst := EmitFamily(WorstRtt, hops);
    var jitter := EmitFamily(Jitter, hops);
    lines := loss + sent + last + avg + best + worst + jitter;
  }

  /** The hop count, the end-to-end gauges when there are hops, and the timestamp. */
  method EmitTail(s: Settings, hops: seq<RawHop>) returns (lines: seq<Line>)
    ensures lines == Tail(s, hops)
  {
    lines := [Help(HopCount), TypeOf(HopCount)];
    if |hops| > 0 {
      lines := lines + [Sample(HopCount, BaseSet, I(|hops|))];
    }
    lines := lines + [Blank];
    if |hops| > 0 {
      var last := hops[|hops| - 1];
      lines := lines + [Help(EndToEndLoss), TypeOf(EndToEndLoss), Sample(EndToEndLoss, BaseSet, last.loss), Blank];
      lines := lines + [Help(EndToEndRtt), TypeOf(EndToEndRtt), Sample(EndToEndRtt, BaseSet, last.avg), Blank];
      lines := lines + [Help(EndToEndJitter), TypeOf(EndToEndJitter), Sample(EndToEndJitter, BaseSet, last.stddev), Blank];
    }
    lines := lines + [Help(LastRun), TypeOf(LastRun), Sample(LastRun, BaseSet, I(s.timestamp))];
  }

  /** The f-string of one line; a hop series gets its labels from `build_labels`,
      every other series the base labels computed once. */
  method FormatLine(s: Settings, repr: real -> string, base: string, l: Line) returns (text: string)
    requires base == Base(s)
    ensures text == LineText(s, repr, l)
  {
    match l
    case Help(m) => text := "# HELP " + MetricName(m) + " " + MetricHelp(m);
    case TypeOf(m) => text := "# TYPE " + MetricName(m) + " " + MetricKind(m);
    case Blank => text := "";
    case Sample(m, ls, value) =>
      var labels := base;
      if ls.InfoSet? {
        labels := base + ",port=\"" + IntToString(s.port) + "\"";
      } else if ls.HopSet? {
        labels := BuildRawLabels(s.custom, s.target, s.probe, RawExtra(ls.hop));
      }
      text := MetricLine(MetricName(m), labels, NumText(repr, value));
  }

  /** Formats every line with its f-string. */
  method Format(s: Settings, repr: real -> string, base: string, lines: seq<Line>) returns (texts: seq<string>)
    requires base == Base(s)
    ensures texts == Texts(s, repr, lines)
  {
    texts := [];
    for i := 0 to |lines|
      invariant |texts| == i
      invariant forall j :: 0 <= j < i ==> texts[j] == LineText(s, repr, lines[j])
    {
      var text := FormatLine(s, repr, base, lines[i]);
      texts := texts + [text];
      forall j | 0 <= j < i + 1
        ensures texts[j] == LineText(s, repr, lines[j])
      {
        if j == i {}
      }
    }
  }

  /** `generate_prometheus_metrics`: the base labels and the summary computed once,
      then every family in order, joined with newlines. */
  method GenerateMetrics(s: Settings, repr: real -> string, hops: seq<RawHop>) returns (text: string)
    ensures text == Join(Texts(s, repr, Output(s, Summarise(hops), hops)), "\n")
  {
    var base := BuildRawLabels(s.custom, s.target, s.probe, []);
    var summary := Summarise(hops);
    var head := EmitHead(summary);
    var perHop := EmitPerHop(hops);
    var tail := EmitTail(s, hops);
    var texts := Format(s, repr, base, head + perHop + tail);
    text := Join(texts, "\n");
  }

  // ---------------------------------------------------------------- properties of the output

  /** The seven per-hop families, each `|hops| + 3` lines long. */
  function Blocks(hops: seq<RawHop>): (b: seq<seq<Line>>)
    ensures |b| == 7
    ensures forall k :: 0 <= k < 7 ==> |b[k]| == |hops| + 3
    ensures PerHopBlocks(hops) == b[0] + b[1] + b[2] + b[3] + b[4] + b[5] + b[6]
  {
    [Block(Loss, hops), Block(Sent, hops), Block(LastRtt, hops), Block(AvgRtt, hops),
     Block(BestRtt, hops), Block(WorstRtt, hops), Block(Jitter, hops)]
  }

  lemma BlockOf(hops: seq<RawHop>, f: Family)
    ensures Blocks(hops)[FamilyIndex(f)] == Block(f, hops)
  {
    match f
    case Loss => case Sent => case LastRtt => case AvgRtt =>
    case BestRtt => case WorstRtt => case Jitter =>
  }

  /** The line on which hop `i` appears in family `f`. */
  function RowPosition(sm: Option<Summary>, hops: seq<RawHop>, f: Family, i: nat): nat
  {
    HeadLength(sm) + FamilyIndex(f) * (|hops| + 3) + 2 + i
  }

  /** The output opens with the `mtr_info` family and ends with the timestamp
      series, with no separator after it; its length is fixed by the number of hops
      and by whether there is a summary. */
  lemma Layout(s: Settings, sm: Option<Summary>, hops: seq<RawHop>)
    ensures |Output(s, sm, hops)| == 31 + 7 * |hops| + (if sm.Some? then 20 else 0)
                                     + (if |hops| > 0 then 13 else 0)
    ensures Output(s, sm, hops)[..4] == InfoBlock
    ensures Output(s, sm, hops)[|Output(s, sm, hops)| - 1] == TimestampLine(s)
  {
    assert Head(sm)[..4] == InfoBlock;
    Ends(Head(sm), PerHopBlocks(hops), Tail(s, hops));
  }

  lemma Ends(h: seq<Line>, p: seq<Line>, t: seq<Line>)
    requires |h| >= 4 && |t| >= 1
    ensures (h + p + t)[..4] == h[..4]
    ensures (h + p + t)[|h + p + t| - 1] == t[|t| - 1]
  {
  }

  /** Where hop `i`'s series of family `f` sits among the seven families. */
  lemma PerHopRow(hops: seq<RawHop>, f: Family, i: int)
    requires 0 <= i < |hops|
    ensures FamilyIndex(f) * (|hops| + 3) + 2 + i < |PerHopBlocks(hops)|
    ensures PerHopBlocks(hops)[FamilyIndex(f) * (|hops| + 3) + 2 + i] == Row(f, hops[i])
  {
    var b := Blocks(hops);
    BlockOf(hops, f);
    assert Block(f, hops)[2 + i] == Row(f, hops[i]);
    SevenRows(b[0], b[1], b[2], b[3], b[4], b[5], b[6], |hops| + 3, FamilyIndex(f), 2 + i);
  }

  /** Every hop, silent or not, has its series in every per-hop family, in hop order
      inside the family, and the families come in a fixed order. */
  lemma EveryHopReported(s: Settings, sm: Option<Summary>, hops: seq<RawHop>, f: Family, i: int)
    requires 0 <= i < |hops|
    ensures RowPosition(sm, hops, f, i) < |Output(s, sm, hops)|
    ensures Output(s, sm, hops)[RowPosition(sm, hops, f, i)] == Row(f, hops[i])
  {
    PerHopRow(hops, f, i);
    InMiddle(Head(sm), PerHopBlocks(hops), Tail(s, hops), FamilyIndex(f) * (|hops| + 3) + 2 + i);
  }

  lemma SevenRows(l0: seq<Line>, l1: seq<Line>, l2: seq<Line>, l3: seq<Line>,
                  l4: seq<Line>, l5: seq<Line>, l6: seq<Line>, n: nat, k: nat, i: nat)
    requires |l0| == |l1| == |l2| == |l3| == |l4| == |l5| == |l6| == n
    requires k < 7 && i < n
    ensures k * n + i < |l0 + l1 + l2 + l3 + l4 + l5 + l6|
    ensures (l0 + l1 + l2 + l3 + l4 + l5 + l6)[k * n + i] == [l0, l1, l2, l3, l4, l5, l6][k][i]
  {
    var all := l0 + l1 + l2 + l3 + l4 + l5 + l6;
    if k == 0 { assert all[i] == l0[i]; }
    else if k == 1 { assert all[n + i] == l1[i]; }
    else if k == 2 { assert all[2 * n + i] == l2[i]; }
    else if k == 3 { assert all[3 * n + i] == l3[i]; }
    else if k == 4 { assert all[4 * n + i] == l4[i]; }
    else if k == 5 { assert all[5 * n + i] == l5[i]; }
    else { assert all[6 * n + i] == l6[i]; }
  }

  lemma InMiddle(a: seq<Line>, b: seq<Line>, c: seq<Line>, j: nat)
    requires j < |b|
    ensures |a| + j < |a + b + c|
    ensures (a + b + c)[|a| + j] == b[j]
  {
  }

  /** The extra labels of a hop series: the hop number as `str()` writes it and the
      host exactly as the report gave it, and nothing else. */
  lemma RawExtraLast(h: RawHop, k: string)
    ensures LastValue(RawExtra(h), k)
         == if k == "host" then Some(h.host) else if k == "hop" then Some(CountText(h.hop)) else None
  {
    var e := RawExtra(h);
    var e1 := e[..1];
    assert e[..|e| - 1] == e1;
    assert e1[..|e1| - 1] == [];
    assert LastValue(e1, k) == if k == "hop" then Some(CountText(h.hop)) else None;
  }

  /** A hop series carries the custom labels, then `target` and `probe` from the
      settings, then the hop number and the host, and every value is written as it
      is: the host of a silent hop stays `???`. A custom `hop` or `host` label is
      overridden by the hop's own. */
  lemma RowLabels(s: Settings, h: RawHop, k: string)
    ensures UniqueKeys(HopLabelSet(s, h))
    ensures Lookup(HopLabelSet(s, h), "hop") == Some(CountText(h.hop))
    ensures Lookup(HopLabelSet(s, h), "host") == Some(h.host)
    ensures Lookup(HopLabelSet(s, h), "target") == Some(s.target)
    ensures Lookup(HopLabelSet(s, h), "probe") == Some(s.probe)
    ensures k != "hop" && k != "host" && k != "target" && k != "probe" ==>
      Lookup(HopLabelSet(s, h), k) == LastValue(s.custom, k)
  {
    RawExtraLast(h, "hop");
    RawExtraLast(h, "host");
    RawExtraLast(h, "target");
    RawExtraLast(h, "probe");
    MergeProperties(s.custom, s.target, s.probe, RawExtra(h));
    var p := Put(Put(UpdateAll([], s.custom), "target", s.target), "probe", s.probe);
    UpdateAllLookup(p, RawExtra(h), "hop");
    UpdateAllLookup(p, RawExtra(h), "host");
    if k != "hop" && k != "host" && k != "target" && k != "probe" {
      RawExtraLast(h, k);
      MergeCustom(s.custom, s.target, s.probe, RawExtra(h), k);
    }
  }

  /** The health score series carries the summary's score rounded to one place, and
      is the third line after `mtr_info`'s separator. */
  lemma HealthScoreLine(s: Settings, sm: Option<Summary>, hops: seq<RawHop>)
    requires sm.Some?
    ensures Output(s, sm, hops)[6] == Sample(HealthScore, BaseSet, Round1(sm.value.score))
  {
    assert Head(sm)[6] == Sample(HealthScore, BaseSet, Round1(sm.value.score));
  }

  /** A health score of integer zero is written as `0`, whatever `str()` does
      with floats. */
  lemma ZeroScoreText(s: Settings, repr: real -> string, sm: Summary, hops: seq<RawHop>)
    requires sm.score == I(0)
    ensures LineText(s, repr, Output(s, Some(sm), hops)[6]) == MetricLine("mtr_path_health_score", Base(s), "0")
  {
    HealthScoreLine(s, Some(sm), hops);
    ZeroText(s, repr);
  }

  lemma ZeroText(s: Settings, repr: real -> string)
    ensures LineText(s, repr, Sample(HealthScore, BaseSet, I(0))) == MetricLine("mtr_path_health_score", Base(s), "0")
  {
    assert IntToString(0) == "0";
  }

  /** A path with a hop at 50% loss or more reports a health score of exactly `0`. */
  lemma HeavyLossScoreText(s: Settings, repr: real -> string, hops: seq<RawHop>, i: int)
    requires Summarise(hops).Some? && 0 <= i < |hops| && NumReal(hops[i].loss) >= 50.0
    requires NumReal(hops[|hops| - 1].avg) >= 0.0 && NumReal(hops[|hops| - 1].stddev) >= 0.0
    ensures LineText(s, repr, Output(s, Summarise(hops), hops)[6]) == MetricLine("mtr_path_health_score", Base(s), "0")
  {
    HeavyLossCritical(hops, i);
    ZeroScoreText(s, repr, Summarise(hops).value, hops);
  }

  /** The end-to-end gauges appear exactly when there are hops, and read the last
      hop's own loss, RTT and jitter, which may be a silent hop's. */
  lemma EndToEndFromLastHop(hops: seq<RawHop>)
    ensures |hops| == 0 <==> EndToEndBlocks(hops) == []
    ensures |hops| > 0 ==>
      var b := EndToEndBlocks(hops); var last := hops[|hops| - 1];
      && b[2] == Sample(EndToEndLoss, BaseSet, last.loss)
      && b[6] == Sample(EndToEndRtt, BaseSet, last.avg)
      && b[10] == Sample(EndToEndJitter, BaseSet, last.stddev)
  {
  }

  /** The `mtr_hop_count` series exists exactly when there are hops and counts all of
      them, silent ones included. */
  lemma HopCountSeries(hops: seq<RawHop>)
    ensures |hops| > 0 <==> |HopCountBlock(hops)| == 4
    ensures |hops| > 0 ==> HopCountBlock(hops)[2] == Sample(HopCount, BaseSet, I(|hops|))
    ensures HopCountBlock(hops)[|HopCountBlock(hops)| - 1] == Blank
  {
  }
}
