/**
 * `format_prometheus_metrics` of the single-file exporter.
 *
 * The base labels are the custom labels in their given order, then `target` and
 * `probe`. The end-to-end and hop-count families come first, then the headers of
 * the two per-hop families, then two series per hub. Every series line carries
 * the same timestamp after its value, and the text ends with a newline.
 *
 * As in the enhanced exporter, lines are built as values naming their family and
 * series, and each is then written by its f-string.
 *
 * The module never imports `logging`, so its warning for a report without hubs
 * raises `NameError`. `Exposition` and `FormatPrometheusMetrics` give the intended
 * `""` there; `FormatAsWritten` is the function as written.
 */
module RootExporter {
  import opened Wrappers
  import opened Text
  import opened Numbers
  import opened Hops
  import opened Labels

  /** The families, in the order their headers are written. */
  datatype Metric = EndToEndRtt | EndToEndLoss | EndToEndJitter | HopCount | HopRtt | HopLoss

  /** Whose series a line is: the whole path, or the hub at 1-based position
      `index` of `hubs`. */
  datatype Series = Path | AtHop(index: int, host: string)

  datatype Line =
    | Help(metric: Metric)
    | TypeOf(metric: Metric)
    | Sample(metric: Metric, series: Series, value: Num)

  function MetricName(m: Metric): string
  {
    match m
    case EndToEndRtt => "mtr_end_to_end_avg_rtt_ms"
    case EndToEndLoss => "mtr_end_to_end_loss_percent"
    case EndToEndJitter => "mtr_end_to_end_jitter_ms"
    case HopCount => "mtr_hop_count"
    case HopRtt => "mtr_avg_rtt_ms"
    case HopLoss => "mtr_loss_percent"
  }

  function MetricHelp(m: Metric): string
  {
    match m
    case EndToEndRtt => "End-to-end average round-trip time in milliseconds"
    case EndToEndLoss => "End-to-end packet loss percentage"
    case EndToEndJitter => "End-to-end jitter (standard deviation) in milliseconds"
    case HopCount => "Number of network hops to target"
    case HopRtt => "Average round-trip time per hop in milliseconds"
    case HopLoss => "Packet loss percentage per hop"
  }

  /** `f'{key}="{value}"'` for every custom label, in order. */
  function CustomParts(labels: Dict): (r: seq<string>)
    ensures |r| == |labels|
    ensures forall i :: 0 <= i < |labels| ==> r[i] == Pair(labels[i].0, labels[i].1)
  {
    seq(|labels|, i requires 0 <= i < |labels| => Pair(labels[i].0, labels[i].1))
  }

  /** `base_labels`: the custom labels, then `target` and `probe`, comma-separated. */
  function BaseLabels(labels: Dict, target: string, probe: string): string
  {
    Join(CustomParts(labels) + [Pair("target", target), Pair("probe", probe)], ",")
  }

  function SeriesLabels(base: string, s: Series): string
  {
    match s
    case Path => base
    case AtHop(i, host) => base + ",hop=\"" + IntToString(i) + "\",host=\"" + host + "\""
  }

  /** The f-string that writes a line; every family is a gauge. */
  function LineText(base: string, repr: real -> string, timestamp: int, l: Line): string
  {
    match l
    case Help(m) => "# HELP " + MetricName(m) + " " + MetricHelp(m)
    case TypeOf(m) => "# TYPE " + MetricName(m) + " gauge"
    case Sample(m, s, v) =>
      MetricName(m) + "{" + SeriesLabels(base, s) + "} " + NumText(repr, v) + " " + IntToString(timestamp)
  }

  function Texts(base: string, repr: real -> string, timestamp: int, lines: seq<Line>): (r: seq<string>)
    ensures |r| == |lines|
  {
    seq(|lines|, i requires 0 <= i < |lines| => LineText(base, repr, timestamp, lines[i]))
  }

  /** `hub.get(key, 0)` */
  function OrZero(o: Option<Num>): Num
  {
    if o.Some? then o.value else I(0)
  }

  /** `d.get(key, 'unknown')` */
  function OrUnknown(o: Option<string>): string
  {
    if o.Some? then o.value else "unknown"
  }

  /** The two series of the hub at 0-based position `i`, labelled `i + 1`. */
  function HubPair(i: int, hub: Hub): seq<Line>
  {
    var at := AtHop(i + 1, OrUnknown(hub.host));
    [Sample(HopRtt, at, OrZero(hub.avg)), Sample(HopLoss, at, OrZero(hub.loss))]
  }

  /** The per-hub series, two per hub, in hub order. */
  function HubRows(hubs: seq<Hub>): (r: seq<Line>)
    ensures |r| == 2 * |hubs|
  {
    seq(2 * |hubs|, k requires 0 <= k < 2 * |hubs| => HubPair(k / 2, hubs[k / 2])[k % 2])
  }

  /** Every line, for a non-empty list of hubs. */
  function Lines(hubs: seq<Hub>): (r: seq<Line>)
    requires |hubs| > 0
    ensures |r| == 16 + 2 * |hubs|
  {
    var last := hubs[|hubs| - 1];
    [Help(EndToEndRtt), TypeOf(EndToEndRtt), Sample(EndToEndRtt, Path, OrZero(last.avg)),
     Help(EndToEndLoss), TypeOf(EndToEndLoss), Sample(EndToEndLoss, Path, OrZero(last.loss)),
     Help(EndToEndJitter), TypeOf(EndToEndJitter), Sample(EndToEndJitter, Path, OrZero(last.stdev)),
     Help(HopCount), TypeOf(HopCount), Sample(HopCount, Path, I(|hubs|)),
     Help(HopRtt), TypeOf(HopRtt), Help(HopLoss), TypeOf(HopLoss)]
    + HubRows(hubs)
  }

  /** `report.get('hubs', [])`, or no hubs when there is no data or no report. */
  function HubsOf(data: Option<MtrData>): seq<Hub>
  {
    if data.None? || data.value.report.None? || data.value.report.value.hubs.None? then []
    else data.value.report.value.hubs.value
  }

  /** What `format_prometheus_metrics` returns, `timestamp` standing for
      `int(time.time() * 1000)`. */
  function Exposition(data: Option<MtrData>, probe: string, labels: Dict,
                      repr: real -> string, timestamp: int): string
  {
    var hubs := HubsOf(data);
    if |hubs| == 0 then ""
    else
      var base := BaseLabels(labels, OrUnknown(data.value.report.value.dst), probe);
      Join(Texts(base, repr, timestamp, Lines(hubs)), "\n") + "\n"
  }

  // ---------------------------------------------------------------- format_prometheus_metrics

  /** `label_parts`, built by appending in a loop, joined with commas. */
  method BuildBaseLabels(labels: Dict, target: string, probe: string) returns (base: string)
    ensures base == BaseLabels(labels, target, probe)
  {
    var parts := [];
    for i := 0 to |labels|
      invariant parts == CustomParts(labels[..i])
    {
      parts := parts + [Pair(labels[i].0, labels[i].1)];
    }
    assert labels[..|labels|] == labels;
    parts := parts + [Pair("target", target), Pair("probe", probe)];
    base := Join(parts, ",");
  }

  /** The end-to-end and hop-count families and the two per-hop headers, then the
      loop over the hubs, numbering them from 1. */
  method BuildLines(hubs: seq<Hub>) returns (metrics: seq<Line>)
    requires |hubs| > 0
    ensures metrics == Lines(hubs)
  {
    var last := hubs[|hubs| - 1];
    metrics := [Help(EndToEndRtt), TypeOf(EndToEndRtt), Sample(EndToEndRtt, Path, OrZero(last.avg))];
    metrics := metrics + [Help(EndToEndLoss), TypeOf(EndToEndLoss), Sample(EndToEndLoss, Path, OrZero(last.loss))];
    var jitter := OrZero(last.stdev);
    metrics := metrics + [Help(EndToEndJitter), TypeOf(EndToEndJitter), Sample(EndToEndJitter, Path, jitter)];
    metrics := metrics + [Help(HopCount), TypeOf(HopCount), Sample(HopCount, Path, I(|hubs|))];
    metrics := metrics + [Help(HopRtt), TypeOf(HopRtt)];
    metrics := metrics + [Help(HopLoss), TypeOf(HopLoss)];
    ghost var header := metrics;
    for i := 0 to |hubs|
      invariant |metrics| == 16 + 2 * i
      invariant metrics[..16] == header
      invariant forall k :: 0 <= k < 2 * i ==> metrics[16 + k] == HubRows(hubs)[k]
    {
      var hub := hubs[i];
      var host := OrUnknown(hub.host);
      var at := AtHop(i + 1, host);
      metrics := metrics + [Sample(HopRtt, at, OrZero(hub.avg))];
      metrics := metrics + [Sample(HopLoss, at, OrZero(hub.loss))];
      assert metrics[16 + 2 * i] == HubRows(hubs)[2 * i];
      assert metrics[16 + 2 * i + 1] == HubRows(hubs)[2 * i + 1];
    }
    assert metrics == header + HubRows(hubs);
  }

  /** Writes every line with its f-string. */
  method Format(base: string, repr: real -> string, timestamp: int, lines: seq<Line>) returns (texts: seq<string>)
    ensures texts == Texts(base, repr, timestamp, lines)
  {
    texts := [];
    for i := 0 to |lines|
      invariant |texts| == i
      invariant forall j :: 0 <= j < i ==> texts[j] == LineText(base, repr, timestamp, lines[j])
    {
      var text := LineText(base, repr, timestamp, lines[i]);
      texts := texts + [text];
      forall j | 0 <= j < i + 1
        ensures texts[j] == LineText(base, repr, timestamp, lines[j])
      {
        if j == i {}
      }
    }
  }

  /** `format_prometheus_metrics(mtr_data, probe_name, labels_dict)`. */
  method FormatPrometheusMetrics(data: Option<MtrData>, probe: string, labels: Dict,
                                 repr: real -> string, timestamp: int) returns (out: string)
    ensures out == Exposition(data, probe, labels, repr, timestamp)
  {
    if data.None? || data.value.report.None? {
      return "";
    }
    var report := data.value.report.value;
    var hubs := if report.hubs.Some? then report.hubs.value else [];
    if |hubs| == 0 {
      return "";
    }
    var base := BuildBaseLabels(labels, OrUnknown(report.dst), probe);
    var metrics := BuildLines(hubs);
    var texts := Format(base, repr, timestamp, metrics);
    out := Join(texts, "\n") + "\n";
  }

  // ---------------------------------------------------------------- properties

  /** The text is empty exactly when there is no data, no report, or no hubs;
      otherwise it ends with a newline. */
  lemma EmptyExactlyWithoutHubs(data: Option<MtrData>, probe: string, labels: Dict,
                                repr: real -> string, timestamp: int)
    ensures Exposition(data, probe, labels, repr, timestamp) == ""
        <==> data.None? || data.value.report.None? || data.value.report.value.hubs.None?
             || data.value.report.value.hubs.value == []
    ensures Exposition(data, probe, labels, repr, timestamp) != "" ==>
      var t := Exposition(data, probe, labels, repr, timestamp); t[|t| - 1] == '\n'
  {
  }

  // ---------------------------------------------------------------- the missing import

  /** How a call ends: with a returned text, or with an uncaught `NameError` for an
      unbound global name. */
  datatype Outcome = Returned(text: string) | NameError(name: string)

  /** `format_prometheus_metrics` as the module is written: it never imports `logging`,
      so the warning on the no-hubs path looks up an unbound name and raises instead
      of returning `""`. Every other path returns what `Exposition` gives. */
  function FormatAsWritten(data: Option<MtrData>, probe: string, labels: Dict,
                           repr: real -> string, timestamp: int): Outcome
  {
    if data.None? || data.value.report.None? then Returned("")
    else if |HubsOf(data)| == 0 then NameError("logging")
    else Returned(Exposition(data, probe, labels, repr, timestamp))
  }

  /** The module as written raises exactly when a report is present but has no hubs,
      which is where the intended behaviour returns the empty text; on every other
      input the two agree. */
  lemma AsWrittenRaisesWithoutHubs(data: Option<MtrData>, probe: string, labels: Dict,
                                   repr: real -> string, timestamp: int)
    ensures FormatAsWritten(data, probe, labels, repr, timestamp).NameError?
        <==> data.Some? && data.value.report.Some?
             && (data.value.report.value.hubs.None? || data.value.report.value.hubs.value == [])
    ensures FormatAsWritten(data, probe, labels, repr, timestamp).NameError? ==>
      FormatAsWritten(data, probe, labels, repr, timestamp).name == "logging"
      && Exposition(data, probe, labels, repr, timestamp) == ""
    ensures FormatAsWritten(data, probe, labels, repr, timestamp).Returned? ==>
      FormatAsWritten(data, probe, labels, repr, timestamp).text == Exposition(data, probe, labels, repr, timestamp)
  {
    EmptyExactlyWithoutHubs(data, probe, labels, repr, timestamp);
  }

  /** `{"report": {}}`: the intended result is `""`, the module as written raises. */
  lemma EmptyReportRaises(probe: string, labels: Dict, repr: real -> string, timestamp: int)
    ensures FormatAsWritten(Some(MtrData(Some(Report(None, None)))), probe, labels, repr, timestamp)
         == NameError("logging")
    ensures Exposition(Some(MtrData(Some(Report(None, None)))), probe, labels, repr, timestamp) == ""
  {
  }

  /** The base labels: the custom ones in their given order, then `target`, then
      `probe`. A custom `target` or `probe` is not replaced: it is written too. */
  lemma BaseLabelsOrder(labels: Dict, target: string, probe: string)
    ensures |labels| == 0 ==> BaseLabels(labels, target, probe) == Pair("target", target) + "," + Pair("probe", probe)
    ensures |labels| > 0 ==>
      BaseLabels(labels, target, probe)
      == Join(CustomParts(labels), ",") + "," + Pair("target", target) + "," + Pair("probe", probe)
  {
    var tail := [Pair("target", target), Pair("probe", probe)];
    JoinCons(Pair("target", target), [Pair("probe", probe)], ",");
    if |labels| == 0 {
      assert CustomParts(labels) + tail == tail;
    } else {
      JoinAppend(CustomParts(labels), tail, ",");
    }
  }

  /** The end-to-end series read the last hub's `Avg`, `Loss%` and `StDev`, 0 when
      missing, and the hop count is the number of hubs. */
  lemma EndToEndFromLastHub(hubs: seq<Hub>)
    requires |hubs| > 0
    ensures Lines(hubs)[2] == Sample(EndToEndRtt, Path, OrZero(hubs[|hubs| - 1].avg))
    ensures Lines(hubs)[5] == Sample(EndToEndLoss, Path, OrZero(hubs[|hubs| - 1].loss))
    ensures Lines(hubs)[8] == Sample(EndToEndJitter, Path, OrZero(hubs[|hubs| - 1].stdev))
    ensures Lines(hubs)[11] == Sample(HopCount, Path, I(|hubs|))
  {
  }

  /** Every hub has exactly two series, RTT then loss, in hub order, labelled with
      its 1-based position in the list rather than its `count`. */
  lemma {:induction false} HubSeries(hubs: seq<Hub>, i: int)
    requires 0 <= i < |hubs|
    ensures Lines(hubs)[16 + 2 * i]
         == Sample(HopRtt, AtHop(i + 1, OrUnknown(hubs[i].host)), OrZero(hubs[i].avg))
    ensures Lines(hubs)[17 + 2 * i]
         == Sample(HopLoss, AtHop(i + 1, OrUnknown(hubs[i].host)), OrZero(hubs[i].loss))
  {
    var r := HubRows(hubs);
    assert (2 * i) / 2 == i && (2 * i) % 2 == 0;
    assert (2 * i + 1) / 2 == i && (2 * i + 1) % 2 == 1;
    assert r[2 * i] == HubPair(i, hubs[i])[0];
    assert r[2 * i + 1] == HubPair(i, hubs[i])[1];
  }

  /** Every series line ends with the one timestamp, after its value. */
  lemma SampleTimestamp(base: string, repr: real -> string, timestamp: int, l: Line)
    requires l.Sample?
    ensures var t := LineText(base, repr, timestamp, l); var u := " " + IntToString(timestamp);
      |u| < |t| && t[|t| - |u|..] == u
  {
    var t := LineText(base, repr, timestamp, l);
    var u := " " + IntToString(timestamp);
    var p := MetricName(l.metric) + "{" + SeriesLabels(base, l.series) + "} " + NumText(repr, l.value);
    assert t == p + u;
    assert |p| > 0;
    assert t[|t| - |u|..] == u;
  }

  /** Only headers and series: a line is a comment exactly when it is not a series. */
  lemma CommentsAreHeaders(base: string, repr: real -> string, timestamp: int, l: Line)
    ensures var t := LineText(base, repr, timestamp, l); |t| > 0 && (t[0] == '#' <==> !l.Sample?)
  {
    var t := LineText(base, repr, timestamp, l);
    match l
    case Help(m) => assert t[0] == '#';
    case TypeOf(m) => assert t[0] == '#';
    case Sample(m, s, v) =>
      NamePrefix(m);
      assert t[0] == MetricName(m)[0];
  }

  /** Every family is named in the `mtr_` namespace. */
  lemma NamePrefix(m: Metric)
    ensures |MetricName(m)| > 4 && MetricName(m)[..4] == "mtr_"
  {
    match m
    case EndToEndRtt => case EndToEndLoss => case EndToEndJitter =>
    case HopCount => case HopRtt => case HopLoss =>
  }
}
