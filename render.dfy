/**
 * `generate_prometheus_metrics` of the primary exporter: the metric families in
 * their fixed order, per-hop series for responding hops only, and one
 * `mtr_hop_info` line for every hop, joined with newlines.
 */
module Render {
  import opened Wrappers
  import opened Text
  import opened Numbers
  import opened Hops
  import opened Health
  import opened Labels
  import opened Exposition

  /** The exporter's settings that reach its output. */
  datatype Config = Config(custom: Dict, target: string, probe: string, port: int, protocol: string)

  /** `f'{name}{{{labels}}} {value}'` */
  function MetricLine(name: string, labels: string, value: string): string
  {
    name + "{" + labels + "} " + value
  }

  /** `build_labels()`: the custom labels, `target` and `probe`, cleaned. */
  function BaseLabels(c: Config): string
  {
    LabelText(CleanValues(Merge(c.custom, c.target, c.probe, [])))
  }

  /** The extra labels of a per-hop series. */
  function HopExtra(h: Hop, responding: string): Dict
  {
    [("hop", IntToString(h.hop)), ("host", CleanHostname(h.host, h.hop)), ("responding", responding)]
  }

  /** The cleaned label set of a per-hop series. */
  function HopDict(c: Config, h: Hop, responding: string): Dict
  {
    CleanValues(Merge(c.custom, c.target, c.probe, HopExtra(h, responding)))
  }

  function InfoLine(c: Config): string
  {
    MetricLine("mtr_info", BaseLabels(c) + ",port=\"" + IntToString(c.port) + "\",protocol=\"" + c.protocol + "\"", "1")
  }

  /** The five path-health lines, when there is a summary. */
  function SummaryLines(c: Config, s: Summary): seq<string>
  {
    var b := BaseLabels(c);
    [MetricLine("mtr_path_health_score", b, FormatFixed(RoundTo(s.rawScore, 1), 1)),
     MetricLine("mtr_path_rtt_variance_ms", b, FormatFixed(s.rttVariance, 2)),
     MetricLine("mtr_path_avg_jitter_ms", b, FormatFixed(s.avgJitter, 2)),
     MetricLine("mtr_path_max_jitter_ms", b, FormatFixed(s.maxJitter, 2)),
     MetricLine("mtr_path_end_to_end_loss_percent", b, FormatFixed(s.e2eLoss, 1))]
  }

  /** The seven per-hop families, in the order they are emitted. */
  datatype Family = Loss | Sent | LastRtt | AvgRtt | BestRtt | WorstRtt | Jitter

  function FamilyName(f: Family): string
  {
    match f
    case Loss => "mtr_loss_percent"
    case Sent => "mtr_packets_sent"
    case LastRtt => "mtr_last_rtt_ms"
    case AvgRtt => "mtr_avg_rtt_ms"
    case BestRtt => "mtr_best_rtt_ms"
    case WorstRtt => "mtr_worst_rtt_ms"
    case Jitter => "mtr_jitter_ms"
  }

  /** The value a family shows for a hop: loss with one decimal, the packet count as
      an integer, times with two decimals. */
  function FamilyValue(f: Family, h: Hop): string
  {
    match f
    case Loss => FormatFixed(h.loss, 1)
    case Sent => IntToString(h.sent)
    case LastRtt => FormatFixed(h.last, 2)
    case AvgRtt => FormatFixed(h.avg, 2)
    case BestRtt => FormatFixed(h.best, 2)
    case WorstRtt => FormatFixed(h.worst, 2)
    case Jitter => FormatFixed(h.stddev, 2)
  }

  function FamilyLine(c: Config, f: Family, h: Hop): string
  {
    MetricLine(FamilyName(f), LabelText(HopDict(c, h, "true")), FamilyValue(f, h))
  }

  /** One line of family `f` per hop, in order. */
  function FamilyLines(c: Config, f: Family, hops: seq<Hop>): seq<string>
  {
    seq(|hops|, i requires 0 <= i < |hops| => FamilyLine(c, f, hops[i]))
  }

  /** The per-hop families for the responding hops; nothing when none responds. */
  function PerHopLines(c: Config, responding: seq<Hop>): seq<string>
  {
    if |responding| == 0 then []
    else
      FamilyLines(c, Loss, responding) + FamilyLines(c, Sent, responding)
      + FamilyLines(c, LastRtt, responding) + FamilyLines(c, AvgRtt, responding)
      + FamilyLines(c, BestRtt, responding) + FamilyLines(c, WorstRtt, responding)
      + FamilyLines(c, Jitter, responding)
  }

  /** The silent, total and responding hop counts. */
  function CountLines(c: Config, hops: seq<Hop>): seq<string>
  {
    var b := BaseLabels(c);
    [MetricLine("mtr_silent_hops_count", b, IntToString(|SilentHops(hops)|)),
     MetricLine("mtr_hop_count", b, IntToString(|hops|)),
     MetricLine("mtr_responding_hop_count", b, IntToString(|ValidHops(hops)|))]
  }

  /** The end-to-end lines: from the summary, or from the last hop without one. */
  function EndToEndLines(c: Config, hops: seq<Hop>): seq<string>
  {
    if |hops| == 0 then []
    else
      var s := Summarise(hops);
      var last := hops[|hops| - 1];
      var b := BaseLabels(c);
      [MetricLine("mtr_end_to_end_loss_percent", b, FormatFixed(if s.Some? then s.value.e2eLoss else last.loss, 1)),
       MetricLine("mtr_end_to_end_avg_rtt_ms", b, FormatFixed(if s.Some? then s.value.e2eRtt else last.avg, 2)),
       MetricLine("mtr_end_to_end_jitter_ms", b, FormatFixed(if s.Some? then s.value.e2eJitter else last.stddev, 2))]
  }

  function RespondingText(h: Hop): string
  {
    if Responding(h) then "true" else "false"
  }

  function HopInfoLine(c: Config, h: Hop): string
  {
    MetricLine("mtr_hop_info", LabelText(HopDict(c, h, RespondingText(h))), "1")
  }

  /** One `mtr_hop_info` line per hop, in order. */
  function HopInfoLines(c: Config, hops: seq<Hop>): seq<string>
  {
    seq(|hops|, i requires 0 <= i < |hops| => HopInfoLine(c, hops[i]))
  }

  /** Every line `generate_prometheus_metrics` emits, in order. */
  function MetricLines(c: Config, hops: seq<Hop>): seq<string>
  {
    var s := Summarise(hops);
    [InfoLine(c)]
    + (if s.Some? then SummaryLines(c, s.value) else [])
    + PerHopLines(c, ValidHops(hops))
    + CountLines(c, hops)
    + EndToEndLines(c, hops)
    + HopInfoLines(c, hops)
  }

  // ---------------------------------------------------------------- generate_prometheus_metrics

  /** The labels of one per-hop series, built as the source builds them. */
  method HopLabels(c: Config, h: Hop, responding: string) returns (labels: string)
    ensures labels == LabelText(HopDict(c, h, responding))
  {
    var host := CleanHostname(h.host, h.hop);
    labels := BuildLabels(c.custom, c.target, c.probe, [("hop", IntToString(h.hop)), ("host", host), ("responding", responding)]);
  }

  /** One of the per-hop loops over the responding hops. */
  method EmitFamily(c: Config, f: Family, hops: seq<Hop>) returns (lines: seq<string>)
    ensures lines == FamilyLines(c, f, hops)
  {
    lines := [];
    for i := 0 to |hops|
      invariant |lines| == i
      invariant forall j :: 0 <= j < i ==> lines[j] == FamilyLine(c, f, hops[j])
    {
      var labels := HopLabels(c, hops[i], "true");
      lines := lines + [MetricLine(FamilyName(f), labels, FamilyValue(f, hops[i]))];
      forall j | 0 <= j < i + 1
        ensures lines[j] == FamilyLine(c, f, hops[j])
      {
        if j == i {
        }
      }
    }
  }

  /** The seven per-hop loops, guarded by `if responding_hops:`. */
  method EmitPerHop(c: Config, responding: seq<Hop>) returns (lines: seq<string>)
    ensures lines == PerHopLines(c, responding)
  {
    lines := [];
    if |responding| > 0 {
      var loss := EmitFamily(c, Loss, responding);
      var sent := EmitFamily(c, Sent, responding);
      var last := EmitFamily(c, LastRtt, responding);
      var avg := EmitFamily(c, AvgRtt, responding);
      var best := EmitFamily(c, BestRtt, responding);
      var worst := EmitFamily(c, WorstRtt, responding);
      var jitter := EmitFamily(c, Jitter, responding);
      lines := loss + sent + last + avg + best + worst + jitter;
    }
  }

  /** The loop over all hops emitting `mtr_hop_info`. */
  method EmitHopInfo(c: Config, hops: seq<Hop>) returns (lines: seq<string>)
    ensures lines == HopInfoLines(c, hops)
  {
    lines := [];
    for i := 0 to |hops|
      invariant |lines| == i
      invariant forall j :: 0 <= j < i ==> lines[j] == HopInfoLine(c, hops[j])
    {
      var h := hops[i];
      var responding := if h.loss < 100.0 then "true" else "false";
      var labels := HopLabels(c, h, responding);
      lines := lines + [MetricLine("mtr_hop_info", labels, "1")];
      forall j | 0 <= j < i + 1
        ensures lines[j] == HopInfoLine(c, hops[j])
      {
        if j == i {
        }
      }
    }
  }

  /** `generate_prometheus_metrics`: the lines of `MetricLines`, joined with newlines. */
  method GenerateMetrics(c: Config, hops: seq<Hop>) returns (text: string)
    ensures text == Join(MetricLines(c, hops), "\n")
  {
    var base := BuildLabels(c.custom, c.target, c.probe, []);
    var summary := Summarise(hops);
    var metadata := base + ",port=\"" + IntToString(c.port) + "\",protocol=\"" + c.protocol + "\"";
    var metrics := [MetricLine("mtr_info", metadata, "1")];
    if summary.Some? {
      var s := summary.value;
      metrics := metrics + [
        MetricLine("mtr_path_health_score", base, FormatFixed(RoundTo(s.rawScore, 1), 1)),
        MetricLine("mtr_path_rtt_variance_ms", base, FormatFixed(s.rttVariance, 2)),
        MetricLine("mtr_path_avg_jitter_ms", base, FormatFixed(s.avgJitter, 2)),
        MetricLine("mtr_path_max_jitter_ms", base, FormatFixed(s.maxJitter, 2)),
        MetricLine("mtr_path_end_to_end_loss_percent", base, FormatFixed(s.e2eLoss, 1))];
    }
    var responding := ValidHops(hops);
    var silent := SilentHops(hops);
    var perHop := EmitPerHop(c, responding);
    metrics := metrics + perHop;
    metrics := metrics + [
      MetricLine("mtr_silent_hops_count", base, IntToString(|silent|)),
      MetricLine("mtr_hop_count", base, IntToString(|hops|)),
      MetricLine("mtr_responding_hop_count", base, IntToString(|responding|))];
    if |hops| > 0 {
      var last := hops[|hops| - 1];
      var loss := if summary.Some? then summary.value.e2eLoss else last.loss;
      var rtt := if summary.Some? then summary.value.e2eRtt else last.avg;
      var jitter := if summary.Some? then summary.value.e2eJitter else last.stddev;
      metrics := metrics + [
        MetricLine("mtr_end_to_end_loss_percent", base, FormatFixed(loss, 1)),
        MetricLine("mtr_end_to_end_avg_rtt_ms", base, FormatFixed(rtt, 2)),
        MetricLine("mtr_end_to_end_jitter_ms", base, FormatFixed(jitter, 2))];
      var info := EmitHopInfo(c, hops);
      metrics := metrics + info;
    }
    assert metrics == MetricLines(c, hops);
    text := Join(metrics, "\n");
  }

  // ---------------------------------------------------------------- properties

  /** Where each family's block starts among the per-hop lines. */
  function FamilyIndex(f: Family): nat
  {
    match f
    case Loss => 0
    case Sent => 1
    case LastRtt => 2
    case AvgRtt => 3
    case BestRtt => 4
    case WorstRtt => 5
    case Jitter => 6
  }

  /** `mtr_info` comes first, and the output has one line per responding hop in each
      of the seven families, one summary block and one end-to-end block when there
      are hops, three counts, and one `mtr_hop_info` line per hop. */
  lemma Layout(c: Config, hops: seq<Hop>)
    ensures MetricLines(c, hops)[0] == InfoLine(c)
    ensures |MetricLines(c, hops)| == 1 + (if |hops| > 0 then 5 else 0) + 7 * |ValidHops(hops)| + 3
                                      + (if |hops| > 0 then 3 else 0) + |hops|
  {
    SummaryShape(hops);
  }

  /** The per-hop block is the seven families in order, each with one line per
      responding hop, in hop order. */
  lemma PerHopOrder(c: Config, responding: seq<Hop>, f: Family, i: int)
    requires 0 <= i < |responding|
    ensures |PerHopLines(c, responding)| == 7 * |responding|
    ensures PerHopLines(c, responding)[FamilyIndex(f) * |responding| + i] == FamilyLine(c, f, responding[i])
  {
    BlockIndex(c, responding, FamilyIndex(f), i);
    FamilyBlockAt(c, responding, f);
  }

  /** In the rendered output the per-hop block starts at line 6, after `mtr_info`
      and the five summary lines; with PerHopOrder, family f's line for the i-th
      responding hop is line 6 + f·n + i of the output, n responding hops. */
  lemma PerHopBlockAt(c: Config, hops: seq<Hop>, k: int)
    requires 0 <= k < |PerHopLines(c, ValidHops(hops))|
    ensures 6 + k < |MetricLines(c, hops)|
    ensures MetricLines(c, hops)[6 + k] == PerHopLines(c, ValidHops(hops))[k]
  {
    SummaryBlockSize(c, hops);
    MetricLinesBlocks(c, hops);
    InMiddle([InfoLine(c)] + SummaryBlock(c, hops), PerHopLines(c, ValidHops(hops)), TailLines(c, hops), k);
  }

  /** With hops to report there are five summary lines. */
  lemma SummaryBlockSize(c: Config, hops: seq<Hop>)
    requires |PerHopLines(c, ValidHops(hops))| > 0
    ensures |[InfoLine(c)] + SummaryBlock(c, hops)| == 6
  {
    SummaryShape(hops);
  }

  lemma InMiddle(a: seq<string>, b: seq<string>, t: seq<string>, k: int)
    requires |a| == 6 && 0 <= k < |b|
    ensures 6 + k < |a + b + t| && (a + b + t)[6 + k] == b[k]
  {
  }

  lemma BlockIndex(c: Config, responding: seq<Hop>, k: nat, i: nat)
    requires k < 7 && i < |responding|
    ensures |PerHopLines(c, responding)| == 7 * |responding|
    ensures PerHopLines(c, responding)[k * |responding| + i] == FamilyBlocks(c, responding)[k][i]
  {
    var ls := FamilyBlocks(c, responding);
    SevenBlocks(ls[0], ls[1], ls[2], ls[3], ls[4], ls[5], ls[6], |responding|, k, i);
  }

  /** The seven families' lines, in the order they are written. */
  function FamilyBlocks(c: Config, responding: seq<Hop>): (ls: seq<seq<string>>)
    ensures |ls| == 7
    ensures forall k :: 0 <= k < 7 ==> |ls[k]| == |responding|
    ensures |responding| > 0 ==> PerHopLines(c, responding) == ls[0] + ls[1] + ls[2] + ls[3] + ls[4] + ls[5] + ls[6]
  {
    [FamilyLines(c, Loss, responding), FamilyLines(c, Sent, responding),
     FamilyLines(c, LastRtt, responding), FamilyLines(c, AvgRtt, responding),
     FamilyLines(c, BestRtt, responding), FamilyLines(c, WorstRtt, responding),
     FamilyLines(c, Jitter, responding)]
  }

  lemma FamilyBlockAt(c: Config, responding: seq<Hop>, f: Family)
    ensures FamilyBlocks(c, responding)[FamilyIndex(f)] == FamilyLines(c, f, responding)
  {
  }

  /** Indexing into seven blocks of equal length. */
  lemma SevenBlocks(l0: seq<string>, l1: seq<string>, l2: seq<string>, l3: seq<string>,
                    l4: seq<string>, l5: seq<string>, l6: seq<string>, n: nat, k: nat, i: nat)
    requires |l0| == |l1| == |l2| == |l3| == |l4| == |l5| == |l6| == n
    requires k < 7 && i < n
    ensures |l0 + l1 + l2 + l3 + l4 + l5 + l6| == 7 * n
    ensures (l0 + l1 + l2 + l3 + l4 + l5 + l6)[k * n + i] == [l0, l1, l2, l3, l4, l5, l6][k][i]
  {
    var all := l0 + l1 + l2 + l3 + l4 + l5 + l6;
    if k == 0 { assert all[i] == l0[i]; }
    else if k == 1 { assert all[n + i] == l1[i]; }
    else if k == 2 { assert all[2 * n + i] == l2[i]; }
    else if k == 3 { assert all[3 * n + i] == l3[i]; }
    else if k == 4 { assert all[4 * n + i] == l4[i]; }
    else if k == 5 { assert all[5 * n + i] == l5[i]; }
    else { assert all[6 * n + i] == l6[i]; }
  }

  /** What `dict.update` takes from the hop's own labels. */
  lemma HopExtraLast(h: Hop, responding: string)
    ensures LastValue(HopExtra(h, responding), "hop") == Some(IntToString(h.hop))
    ensures LastValue(HopExtra(h, responding), "host") == Some(CleanHostname(h.host, h.hop))
    ensures LastValue(HopExtra(h, responding), "responding") == Some(responding)
    ensures LastValue(HopExtra(h, responding), "target").None?
    ensures LastValue(HopExtra(h, responding), "probe").None?
  {
    var e := HopExtra(h, responding);
    var e2, e1 := e[..2], e[..2][..1];
    assert e1[..0] == [];
    assert e1[0].0 == "hop" && e2[1].0 == "host" && e[2].0 == "responding";
    assert LastValue(e, "hop") == LastValue(e2, "hop") == LastValue(e1, "hop");
    assert LastValue(e, "host") == LastValue(e2, "host");
    forall k | k == "target" || k == "probe"
      ensures LastValue(HopExtra(h, responding), k).None?
    {
      assert LastValue(e, k) == LastValue(e2, k) == LastValue(e1, k) == LastValue(e1[..0], k);
    }
  }

  /** Before cleaning, the merged label set holds the hop's own labels and the
      configured target and probe. */
  lemma MergedHop(c: Config, h: Hop, responding: string)
    ensures var m := Merge(c.custom, c.target, c.probe, HopExtra(h, responding));
      && Lookup(m, "hop") == Some(IntToString(h.hop))
      && Lookup(m, "host") == Some(CleanHostname(h.host, h.hop))
      && Lookup(m, "responding") == Some(responding)
      && Lookup(m, "target") == Some(c.target)
      && Lookup(m, "probe") == Some(c.probe)
  {
    var extra := HopExtra(h, responding);
    var p := Put(Put(UpdateAll([], c.custom), "target", c.target), "probe", c.probe);
    MergeProperties(c.custom, c.target, c.probe, extra);
    HopExtraLast(h, responding);
    UpdateAllLookup(p, extra, "hop");
    UpdateAllLookup(p, extra, "host");
    UpdateAllLookup(p, extra, "responding");
  }

  /** Cleaning leaves a value that is already safe as it is. */
  lemma SafeLookup(d: Dict, k: string, v: string)
    requires Lookup(d, k) == Some(v) && AllSafe(v)
    ensures Lookup(CleanValues(d), k) == Some(v)
  {
    CleanValuesLookup(d, k);
    CleanValueSafe(v);
  }

  lemma FlagSafe(flag: string)
    requires flag == "true" || flag == "false"
    ensures AllSafe(flag)
  {
    if flag == "true" {
      assert IsSafe('t') && IsSafe('r') && IsSafe('u') && IsSafe('e');
    } else {
      assert IsSafe('f') && IsSafe('a') && IsSafe('l') && IsSafe('s') && IsSafe('e');
    }
  }

  /** A hop's label set, after cleaning, carries its number, its cleaned host name and
      the responding flag unchanged, as well as the cleaned target and probe. */
  lemma HopLabelValues(c: Config, h: Hop, responding: string)
    requires responding == "true" || responding == "false"
    ensures Lookup(HopDict(c, h, responding), "hop") == Some(IntToString(h.hop))
    ensures Lookup(HopDict(c, h, responding), "host") == Some(CleanHostname(h.host, h.hop))
    ensures Lookup(HopDict(c, h, responding), "responding") == Some(responding)
    ensures Lookup(HopDict(c, h, responding), "target") == Some(CleanValue(c.target))
    ensures Lookup(HopDict(c, h, responding), "probe") == Some(CleanValue(c.probe))
  {
    var m := Merge(c.custom, c.target, c.probe, HopExtra(h, responding));
    MergedHop(c, h, responding);
    IntToStringSafe(h.hop);
    SafeLookup(m, "hop", IntToString(h.hop));
    CleanHostnameProperties(h.host, h.hop);
    SafeLookup(m, "host", CleanHostname(h.host, h.hop));
    FlagSafe(responding);
    SafeLookup(m, "responding", responding);
    CleanValuesLookup(m, "target");
    CleanValuesLookup(m, "probe");
  }

  /** Every hop's `mtr_hop_info` line says whether it responds. */
  lemma HopInfoResponding(c: Config, hops: seq<Hop>, i: int)
    requires 0 <= i < |hops|
    ensures HopInfoLines(c, hops)[i] == MetricLine("mtr_hop_info", LabelText(HopDict(c, hops[i], RespondingText(hops[i]))), "1")
    ensures Lookup(HopDict(c, hops[i], RespondingText(hops[i])), "responding")
         == Some(if hops[i].loss < 100.0 then "true" else "false")
  {
    HopLabelValues(c, hops[i], RespondingText(hops[i]));
  }

  /** The silent count is the hop count minus the responding count. */
  lemma Counts(c: Config, hops: seq<Hop>)
    ensures CountLines(c, hops) ==
      [MetricLine("mtr_silent_hops_count", BaseLabels(c), IntToString(|hops| - |ValidHops(hops)|)),
       MetricLine("mtr_hop_count", BaseLabels(c), IntToString(|hops|)),
       MetricLine("mtr_responding_hop_count", BaseLabels(c), IntToString(|ValidHops(hops)|))]
  {
    Partition(hops);
  }

  /** The end-to-end lines show the reference hop: the last responding hop, or the
      last hop when none responds. */
  lemma EndToEndReference(c: Config, hops: seq<Hop>)
    requires |hops| > 0
    ensures EndToEndLines(c, hops) ==
      [MetricLine("mtr_end_to_end_loss_percent", BaseLabels(c), FormatFixed(Reference(hops).loss, 1)),
       MetricLine("mtr_end_to_end_avg_rtt_ms", BaseLabels(c), FormatFixed(Reference(hops).avg, 2)),
       MetricLine("mtr_end_to_end_jitter_ms", BaseLabels(c), FormatFixed(Reference(hops).stddev, 2))]
  {
    SummaryShape(hops);
  }

  // ---------------------------------------------------------------- the output passes the validator

  /** A line the validator accepts as it is. */
  predicate Good(line: string)
  {
    Tidy(line) && ValidLine(line)
  }

  predicate AllGood(lines: seq<string>)
  {
    forall i {:trigger Good(lines[i])} :: 0 <= i < |lines| ==> Good(lines[i])
  }

  /** Settings whose text reaches the output unescaped: the custom label names and
      the protocol. None of them may hold a newline. */
  predicate OneLineSettings(c: Config)
  {
    (forall k :: k in Keys(c.custom) ==> '\n' !in k) && '\n' !in c.protocol
  }

  lemma GoodAppend(a: seq<string>, b: seq<string>)
    requires AllGood(a) && AllGood(b)
    ensures AllGood(a + b)
  {
    forall i | 0 <= i < |a + b|
      ensures Good((a + b)[i])
    {
      if i >= |a| {
        assert (a + b)[i] == b[i - |a|];
      }
    }
  }

  /** `name{labels} value` is accepted when the name starts with a non-space, neither
      name nor labels break the line, and the value is a number. */
  lemma LineGood(name: string, labels: string, value: string)
    requires |name| > 0 && !IsSpace(name[0]) && '\n' !in name && '\n' !in labels
    requires ParseSigned(value).Some?
    ensures Good(MetricLine(name, labels, value))
  {
    var prefix := name + "{" + labels + "}";
    assert MetricLine(name, labels, value) == prefix + " " + value;
    assert prefix[0] == name[0];
    MetricLineValid(prefix, value);
  }

  /** A label set merged from one-line names, cleaned, has no newline. */
  lemma DictOneLine(c: Config, extra: Dict)
    requires OneLineSettings(c)
    requires forall k :: k in Keys(extra) ==> '\n' !in k
    ensures '\n' !in LabelText(CleanValues(Merge(c.custom, c.target, c.probe, extra)))
  {
    var m := Merge(c.custom, c.target, c.probe, extra);
    forall i | 0 <= i < |m|
      ensures '\n' !in m[i].0
    {
      assert m[i].0 in Keys(m);
      MergeKeys(c.custom, c.target, c.probe, extra, m[i].0);
    }
    CleanLabelTextNoNewline(m);
  }

  lemma BaseOneLine(c: Config)
    requires OneLineSettings(c)
    ensures '\n' !in BaseLabels(c)
  {
    DictOneLine(c, []);
  }

  lemma HopOneLine(c: Config, h: Hop, responding: string)
    requires OneLineSettings(c)
    ensures '\n' !in LabelText(HopDict(c, h, responding))
  {
    var extra := HopExtra(h, responding);
    assert Keys(extra) == ["hop", "host", "responding"];
    DictOneLine(c, extra);
  }

  lemma FixedNumber(v: real, p: nat)
    ensures ParseSigned(FormatFixed(v, p)).Some?
  {
    FormatFixedRoundTrip(v, p);
  }

  lemma OneNumber()
    ensures ParseSigned("1").Some?
  {
    IntToStringIsFloat(1);
    assert IntToString(1) == "1";
  }

  lemma InfoGood(c: Config)
    requires OneLineSettings(c)
    ensures AllGood([InfoLine(c)])
  {
    BaseOneLine(c);
    IntToStringChars(c.port);
    InfoText(BaseLabels(c), IntToString(c.port), c.protocol);
  }

  lemma InfoText(b: string, port: string, protocol: string)
    requires '\n' !in b && '\n' !in port && '\n' !in protocol
    ensures AllGood([MetricLine("mtr_info", b + ",port=\"" + port + "\",protocol=\"" + protocol + "\"", "1")])
  {
    OneNumber();
    var line := MetricLine("mtr_info", b + ",port=\"" + port + "\",protocol=\"" + protocol + "\"", "1");
    LineGood("mtr_info", b + ",port=\"" + port + "\",protocol=\"" + protocol + "\"", "1");
    assert [line][0] == line;
  }

  lemma SummaryGood(c: Config, s: Summary)
    requires OneLineSettings(c)
    ensures AllGood(SummaryLines(c, s))
  {
    BaseOneLine(c);
    SummaryValuesNumbers(s);
    SummaryNamesOk();
    LinesGood(SummaryNames, BaseLabels(c), SummaryValues(s));
    SummaryAsLines(c, s);
  }

  function SummaryValues(s: Summary): seq<string>
  {
    FixedValues([RoundTo(s.rawScore, 1), s.rttVariance, s.avgJitter, s.maxJitter, s.e2eLoss], [1, 2, 2, 2, 1])
  }

  /** Each value with its own number of decimals. */
  function FixedValues(vs: seq<real>, places: seq<nat>): (r: seq<string>)
    requires |vs| == |places|
    ensures |r| == |vs|
  {
    seq(|vs|, i requires 0 <= i < |vs| => FormatFixed(vs[i], places[i]))
  }

  lemma FixedValuesNumbers(vs: seq<real>, places: seq<nat>)
    requires |vs| == |places|
    ensures forall i :: 0 <= i < |vs| ==> ParseSigned(FixedValues(vs, places)[i]).Some?
  {
    forall i | 0 <= i < |vs|
      ensures ParseSigned(FixedValues(vs, places)[i]).Some?
    {
      FixedNumber(vs[i], places[i]);
    }
  }

  lemma SummaryValuesNumbers(s: Summary)
    ensures |SummaryValues(s)| == 5
    ensures forall i :: 0 <= i < 5 ==> ParseSigned(SummaryValues(s)[i]).Some?
  {
    FixedValuesNumbers([RoundTo(s.rawScore, 1), s.rttVariance, s.avgJitter, s.maxJitter, s.e2eLoss], [1, 2, 2, 2, 1]);
  }

  lemma SummaryAsLines(c: Config, s: Summary)
    ensures |SummaryValues(s)| == |SummaryNames|
    ensures SummaryLines(c, s) == Lines(SummaryNames, BaseLabels(c), SummaryValues(s))
  {
    var vs := SummaryValues(s);
    assert vs[0] == FormatFixed(RoundTo(s.rawScore, 1), 1);
    assert vs[1] == FormatFixed(s.rttVariance, 2);
    assert vs[2] == FormatFixed(s.avgJitter, 2);
    assert vs[3] == FormatFixed(s.maxJitter, 2);
    assert vs[4] == FormatFixed(s.e2eLoss, 1);
    assert vs == [vs[0], vs[1], vs[2], vs[3], vs[4]];
    FiveLines(SummaryNames, BaseLabels(c), vs);
  }

  lemma FiveLines(names: seq<string>, labels: string, vs: seq<string>)
    requires |names| == |vs| == 5
    ensures Lines(names, labels, vs) == [MetricLine(names[0], labels, vs[0]),
      MetricLine(names[1], labels, vs[1]), MetricLine(names[2], labels, vs[2]),
      MetricLine(names[3], labels, vs[3]), MetricLine(names[4], labels, vs[4])]
  {
  }

  const SummaryNames: seq<string> := ["mtr_path_health_score", "mtr_path_rtt_variance_ms",
    "mtr_path_avg_jitter_ms", "mtr_path_max_jitter_ms", "mtr_path_end_to_end_loss_percent"]

  lemma SummaryNamesOk()
    ensures |SummaryNames| == 5
    ensures forall i :: 0 <= i < 5 ==> NameOk(SummaryNames[i])
  {
  }

  predicate NameOk(name: string)
  {
    |name| > 0 && !IsSpace(name[0]) && '\n' !in name
  }

  /** Several series sharing one label set. */
  function Lines(names: seq<string>, labels: string, values: seq<string>): (r: seq<string>)
    requires |names| == |values|
    ensures |r| == |names|
  {
    seq(|names|, i requires 0 <= i < |names| => MetricLine(names[i], labels, values[i]))
  }

  lemma LinesGood(names: seq<string>, labels: string, values: seq<string>)
    requires |names| == |values| && '\n' !in labels
    requires forall i :: 0 <= i < |names| ==> NameOk(names[i]) && ParseSigned(values[i]).Some?
    ensures AllGood(Lines(names, labels, values))
  {
    forall i | 0 <= i < |names|
      ensures Good(Lines(names, labels, values)[i])
    {
      LineGood(names[i], labels, values[i]);
    }
  }

  lemma FamilyValueNumber(f: Family, h: Hop)
    ensures ParseSigned(FamilyValue(f, h)).Some?
  {
    match f
    case Sent => IntToStringIsFloat(h.sent);
    case Loss => FixedNumber(h.loss, 1);
    case LastRtt => FixedNumber(h.last, 2);
    case AvgRtt => FixedNumber(h.avg, 2);
    case BestRtt => FixedNumber(h.best, 2);
    case WorstRtt => FixedNumber(h.worst, 2);
    case Jitter => FixedNumber(h.stddev, 2);
  }

  lemma FamilyNameShape(f: Family)
    ensures |FamilyName(f)| > 0 && FamilyName(f)[0] == 'm' && '\n' !in FamilyName(f)
  {
  }

  lemma FamilyLineGood(c: Config, f: Family, h: Hop)
    requires OneLineSettings(c)
    ensures Good(FamilyLine(c, f, h))
  {
    HopOneLine(c, h, "true");
    FamilyValueNumber(f, h);
    FamilyNameShape(f);
    LineGood(FamilyName(f), LabelText(HopDict(c, h, "true")), FamilyValue(f, h));
  }

  lemma FamilyLinesGood(c: Config, f: Family, responding: seq<Hop>)
    requires OneLineSettings(c)
    ensures AllGood(FamilyLines(c, f, responding))
  {
    forall i | 0 <= i < |responding|
      ensures Good(FamilyLines(c, f, responding)[i])
    {
      FamilyLineGood(c, f, responding[i]);
    }
  }

  lemma PerHopGood(c: Config, responding: seq<Hop>)
    requires OneLineSettings(c)
    ensures AllGood(PerHopLines(c, responding))
  {
    if |responding| > 0 {
      var ls := FamilyBlocks(c, responding);
      FamilyLinesGood(c, Loss, responding);
      FamilyLinesGood(c, Sent, responding);
      FamilyLinesGood(c, LastRtt, responding);
      FamilyLinesGood(c, AvgRtt, responding);
      FamilyLinesGood(c, BestRtt, responding);
      FamilyLinesGood(c, WorstRtt, responding);
      FamilyLinesGood(c, Jitter, responding);
      SevenGood(ls[0], ls[1], ls[2], ls[3], ls[4], ls[5], ls[6]);
    }
  }

  lemma SevenGood(l0: seq<string>, l1: seq<string>, l2: seq<string>, l3: seq<string>,
                  l4: seq<string>, l5: seq<string>, l6: seq<string>)
    requires AllGood(l0) && AllGood(l1) && AllGood(l2) && AllGood(l3)
    requires AllGood(l4) && AllGood(l5) && AllGood(l6)
    ensures AllGood(l0 + l1 + l2 + l3 + l4 + l5 + l6)
  {
    GoodAppend(l0, l1);
    GoodAppend(l0 + l1, l2);
    GoodAppend(l0 + l1 + l2, l3);
    GoodAppend(l0 + l1 + l2 + l3, l4);
    GoodAppend(l0 + l1 + l2 + l3 + l4, l5);
    GoodAppend(l0 + l1 + l2 + l3 + l4 + l5, l6);
  }

  const CountNames: seq<string> := ["mtr_silent_hops_count", "mtr_hop_count", "mtr_responding_hop_count"]
  const EndToEndNames: seq<string> := ["mtr_end_to_end_loss_percent", "mtr_end_to_end_avg_rtt_ms", "mtr_end_to_end_jitter_ms"]

  lemma CountNamesOk()
    ensures |CountNames| == 3 && forall i :: 0 <= i < 3 ==> NameOk(CountNames[i])
  {
  }

  lemma EndToEndNamesOk()
    ensures |EndToEndNames| == 3 && forall i :: 0 <= i < 3 ==> NameOk(EndToEndNames[i])
  {
  }

  /** Integers written as `str()` writes them. */
  function IntValues(ns: seq<int>): (r: seq<string>)
    ensures |r| == |ns|
  {
    seq(|ns|, i requires 0 <= i < |ns| => IntToString(ns[i]))
  }

  lemma IntValuesNumbers(ns: seq<int>)
    ensures forall i :: 0 <= i < |ns| ==> ParseSigned(IntValues(ns)[i]).Some?
  {
    forall i | 0 <= i < |ns|
      ensures ParseSigned(IntValues(ns)[i]).Some?
    {
      IntToStringIsFloat(ns[i]);
    }
  }

  lemma CountGood(c: Config, hops: seq<Hop>)
    requires OneLineSettings(c)
    ensures AllGood(CountLines(c, hops))
  {
    var ns := [|SilentHops(hops)|, |hops|, |ValidHops(hops)|];
    BaseOneLine(c);
    IntValuesNumbers(ns);
    CountNamesOk();
    LinesGood(CountNames, BaseLabels(c), IntValues(ns));
    assert CountLines(c, hops) == Lines(CountNames, BaseLabels(c), IntValues(ns));
  }

  /** The three end-to-end figures: from the summary, or from the last hop. */
  function EndToEndFigures(hops: seq<Hop>): seq<real>
    requires |hops| > 0
  {
    var s := Summarise(hops);
    var last := hops[|hops| - 1];
    [if s.Some? then s.value.e2eLoss else last.loss,
     if s.Some? then s.value.e2eRtt else last.avg,
     if s.Some? then s.value.e2eJitter else last.stddev]
  }

  lemma EndToEndAsLines(c: Config, hops: seq<Hop>)
    requires |hops| > 0
    ensures |EndToEndFigures(hops)| == 3
    ensures EndToEndLines(c, hops) == Lines(EndToEndNames, BaseLabels(c), FixedValues(EndToEndFigures(hops), [1, 2, 2]))
  {
    var fs := EndToEndFigures(hops);
    var vs := FixedValues(fs, [1, 2, 2]);
    assert vs == [FormatFixed(fs[0], 1), FormatFixed(fs[1], 2), FormatFixed(fs[2], 2)];
    ThreeLines(EndToEndNames, BaseLabels(c), vs);
  }

  lemma ThreeLines(names: seq<string>, labels: string, vs: seq<string>)
    requires |names| == |vs| == 3
    ensures Lines(names, labels, vs) == [MetricLine(names[0], labels, vs[0]),
      MetricLine(names[1], labels, vs[1]), MetricLine(names[2], labels, vs[2])]
  {
  }

  lemma EndToEndGood(c: Config, hops: seq<Hop>)
    requires OneLineSettings(c)
    ensures AllGood(EndToEndLines(c, hops))
  {
    if |hops| > 0 {
      EndToEndAsLines(c, hops);
      BaseOneLine(c);
      FixedValuesNumbers(EndToEndFigures(hops), [1, 2, 2]);
      EndToEndNamesOk();
      LinesGood(EndToEndNames, BaseLabels(c), FixedValues(EndToEndFigures(hops), [1, 2, 2]));
    }
  }

  lemma HopInfoLineGood(c: Config, h: Hop)
    requires OneLineSettings(c)
    ensures Good(HopInfoLine(c, h))
  {
    HopOneLine(c, h, RespondingText(h));
    HopInfoText(LabelText(HopDict(c, h, RespondingText(h))));
  }

  lemma HopInfoText(labels: string)
    requires '\n' !in labels
    ensures Good(MetricLine("mtr_hop_info", labels, "1"))
  {
    OneNumber();
    LineGood("mtr_hop_info", labels, "1");
  }

  lemma HopInfoGood(c: Config, hops: seq<Hop>)
    requires OneLineSettings(c)
    ensures AllGood(HopInfoLines(c, hops))
  {
    forall i | 0 <= i < |hops|
      ensures Good(HopInfoLines(c, hops)[i])
    {
      HopInfoLineGood(c, hops[i]);
    }
  }

  /** The summary lines, or nothing when there is no summary. */
  function SummaryBlock(c: Config, hops: seq<Hop>): seq<string>
  {
    var s := Summarise(hops);
    if s.Some? then SummaryLines(c, s.value) else []
  }

  lemma SummaryBlockGood(c: Config, hops: seq<Hop>)
    requires OneLineSettings(c)
    ensures AllGood(SummaryBlock(c, hops))
  {
    var s := Summarise(hops);
    if s.Some? {
      SummaryGood(c, s.value);
    }
  }

  /** The lines up to the per-hop families, and the lines after them. */
  function HeadLines(c: Config, hops: seq<Hop>): seq<string>
  {
    [InfoLine(c)] + SummaryBlock(c, hops) + PerHopLines(c, ValidHops(hops))
  }

  function TailLines(c: Config, hops: seq<Hop>): seq<string>
  {
    CountLines(c, hops) + EndToEndLines(c, hops) + HopInfoLines(c, hops)
  }

  lemma MetricLinesBlocks(c: Config, hops: seq<Hop>)
    ensures MetricLines(c, hops) == HeadLines(c, hops) + TailLines(c, hops)
  {
    Regroup(HeadLines(c, hops), CountLines(c, hops), EndToEndLines(c, hops), HopInfoLines(c, hops));
  }

  lemma Regroup(a: seq<string>, b: seq<string>, d: seq<string>, e: seq<string>)
    ensures a + (b + d + e) == a + b + d + e
  {
  }

  /** Every line the exporter emits is accepted by the validator as it stands. */
  lemma AllLinesGood(c: Config, hops: seq<Hop>)
    requires OneLineSettings(c)
    ensures AllGood(MetricLines(c, hops))
  {
    HeadGood(c, hops);
    TailGood(c, hops);
    GoodAppend(HeadLines(c, hops), TailLines(c, hops));
    MetricLinesBlocks(c, hops);
  }

  lemma InfoSummaryGood(c: Config, hops: seq<Hop>)
    requires OneLineSettings(c)
    ensures AllGood([InfoLine(c)] + SummaryBlock(c, hops))
  {
    InfoGood(c);
    SummaryBlockGood(c, hops);
    GoodAppend([InfoLine(c)], SummaryBlock(c, hops));
  }

  lemma HeadGood(c: Config, hops: seq<Hop>)
    requires OneLineSettings(c)
    ensures AllGood(HeadLines(c, hops))
  {
    InfoSummaryGood(c, hops);
    PerHopGood(c, ValidHops(hops));
    GoodAppend([InfoLine(c)] + SummaryBlock(c, hops), PerHopLines(c, ValidHops(hops)));
  }

  lemma TailGood(c: Config, hops: seq<Hop>)
    requires OneLineSettings(c)
    ensures AllGood(TailLines(c, hops))
  {
    CountGood(c, hops);
    EndToEndGood(c, hops);
    HopInfoGood(c, hops);
    GoodAppend(CountLines(c, hops), EndToEndLines(c, hops));
    GoodAppend(CountLines(c, hops) + EndToEndLines(c, hops), HopInfoLines(c, hops));
  }

  /** Lines the validator accepts, joined with newlines: the validator reads back the
      same lines, accepts the text, and blank-line cleaning leaves it alone. */
  lemma GoodText(lines: seq<string>)
    requires |lines| > 0 && AllGood(lines)
    ensures MetricsLines(Join(lines, "\n")) == lines
    ensures ValidText(Join(lines, "\n"))
    ensures CleanBlankLines(Join(lines, "\n")) == Join(lines, "\n")
  {
    forall i | 0 <= i < |lines|
      ensures Tidy(lines[i]) && ValidLine(lines[i])
    {
      assert Good(lines[i]);
    }
    TidyLines(lines);
    LinesValid(lines);
    CleanTidy(lines);
  }

  /** What `generate_prometheus_metrics` returns passes `validate_metrics`, line for
      line, and the blank-line cleaning before a write leaves it unchanged, provided
      no custom label name and not the protocol holds a newline. */
  lemma RenderedValid(c: Config, hops: seq<Hop>)
    requires OneLineSettings(c)
    ensures MetricsLines(Join(MetricLines(c, hops), "\n")) == MetricLines(c, hops)
    ensures ValidText(Join(MetricLines(c, hops), "\n"))
    ensures CleanBlankLines(Join(MetricLines(c, hops), "\n")) == Join(MetricLines(c, hops), "\n")
  {
    AllLinesGood(c, hops);
    GoodText(MetricLines(c, hops));
  }
}
