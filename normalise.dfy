/**
 * `parse_mtr_data` of the primary exporter: from decoded hubs to hop records,
 * filling in absent fields and converting `count`, `Snt` and the times.
 */
module Normalise {
  import opened Wrappers
  import opened Text
  import opened Numbers
  import opened Hops

  /** Python's `int(x)` of a JSON number: a float is truncated toward zero. */
  function NumInt(n: Num): (i: int)
    ensures n.I? ==> i == n.i
    ensures n.R? ==> Abs(i as real) <= Abs(n.r) < Abs(i as real) + 1.0
    ensures n.R? ==> (i < 0 ==> n.r < 0.0) && (i > 0 ==> n.r > 0.0)
  {
    match n
    case I(i) => i
    case R(r) => Truncate(r)
  }

  /** `hub.get('count', 0)`, with a string converted by `int()` and 0 when that fails. */
  function HopNumberOf(c: Option<Count>): int
  {
    match c
    case None => 0
    case Some(CInt(i)) => i
    case Some(CStr(s)) =>
      match StrToInt(s)
      case Some(i) => i
      case None => 0
  }

  /** `float(hub.get(key, 0.0))` */
  function RealOr0(n: Option<Num>): real
  {
    if n.Some? then NumReal(n.value) else 0.0
  }

  /** `int(hub.get(key, 0))` */
  function IntOr0(n: Option<Num>): int
  {
    if n.Some? then NumInt(n.value) else 0
  }

  /** The hop record of one hub. */
  function ToHop(h: Hub): Hop
  {
    Hop(HopNumberOf(h.count), if h.host.Some? then h.host.value else "unknown",
        RealOr0(h.loss), IntOr0(h.snt), RealOr0(h.last), RealOr0(h.avg),
        RealOr0(h.best), RealOr0(h.wrst), RealOr0(h.stdev))
  }

  /** `mtr_data['report']['hubs']` when both keys are present. */
  function HubsOf(d: MtrData): Option<seq<Hub>>
  {
    if d.report.Some? && d.report.value.hubs.Some? then d.report.value.hubs else None
  }

  /** `parse_mtr_data`: no hops without `report` or `hubs`, otherwise one hop per hub,
      in the order of the hubs. */
  method ParseMtrData(d: MtrData) returns (hops: seq<Hop>)
    ensures HubsOf(d).None? ==> hops == []
    ensures HubsOf(d).Some? ==> |hops| == |HubsOf(d).value|
    ensures HubsOf(d).Some? ==> forall i :: 0 <= i < |hops| ==> hops[i] == ToHop(HubsOf(d).value[i])
  {
    hops := [];
    if d.report.None? || d.report.value.hubs.None? {
      return;
    }
    var hubs := d.report.value.hubs.value;
    for i := 0 to |hubs|
      invariant |hops| == i
      invariant forall j :: 0 <= j < i ==> hops[j] == ToHop(hubs[j])
    {
      hops := hops + [ToHop(hubs[i])];
    }
  }

  // ---------------------------------------------------------------- properties

  /** An absent field becomes 0, 0.0 or `unknown`. */
  lemma Defaults(h: Hub)
    requires h == Hub(None, None, None, None, None, None, None, None, None)
    ensures ToHop(h) == Hop(0, "unknown", 0.0, 0, 0.0, 0.0, 0.0, 0.0, 0.0)
  {
  }

  /** A present field is kept: numbers are converted, the host is copied. */
  lemma PresentFields(h: Hub)
    requires h.host.Some? && h.loss.Some? && h.avg.Some? && h.stdev.Some?
    ensures ToHop(h).host == h.host.value
    ensures ToHop(h).loss == NumReal(h.loss.value)
    ensures ToHop(h).avg == NumReal(h.avg.value)
    ensures ToHop(h).stddev == NumReal(h.stdev.value)
  {
  }

  /** A string `count` that `int()` rejects becomes hop 0; the text of an integer,
      even with whitespace around it, becomes that integer. */
  lemma CountCoercion(s: string, sp: string, i: int)
    requires AllSpace(sp)
    ensures StrToInt(s).None? ==> HopNumberOf(Some(CStr(s))) == 0
    ensures HopNumberOf(Some(CStr(sp + IntToString(i)))) == i
  {
    var t := IntToString(i);
    assert t[0] == '-' || IsDigit(t[0]);
    assert IsDigit(t[|t| - 1]);
    StripPadded(sp, t);
    IntToStringRoundTrip(i);
  }

  /** The hubs the text parser builds carry every field, so normalising them keeps
      their values and fills in nothing. */
  lemma ParsedHubToHop(n: int, host: string, loss: real, sent: int, last: real, avg: real,
                       best: real, worst: real, sd: real)
    ensures ToHop(Hub(Some(CInt(n)), Some(host), Some(R(loss)), Some(I(sent)), Some(R(last)),
                      Some(R(avg)), Some(R(best)), Some(R(worst)), Some(R(sd))))
         == Hop(n, host, loss, sent, last, avg, best, worst, sd)
  {
  }
}
