/**
 * The records the exporter passes between its stages.
 *
 * A hub is one decoded entry of `report.hubs` in mtr's JSON report: a dictionary
 * whose keys may be missing. A hop is the normalised record built from it.
 */
module Hops {
  import opened Wrappers
  import opened Numbers

  /** A hub's `count`: mtr writes a number, but a string is accepted and converted. */
  datatype Count = CInt(i: int) | CStr(s: string)

  /** A decoded JSON number: Python keeps `int` and `float` apart. */
  datatype Num = I(i: int) | R(r: real)

  /** One hub; `None` is a key that is absent from the dictionary. */
  datatype Hub = Hub(
    count: Option<Count>,
    host: Option<string>,
    loss: Option<Num>,     // "Loss%"
    snt: Option<Num>,      // "Snt"
    last: Option<Num>,     // "Last"
    avg: Option<Num>,      // "Avg"
    best: Option<Num>,     // "Best"
    wrst: Option<Num>,     // "Wrst"
    stdev: Option<Num>)    // "StDev"

  /** `report`: its `hubs` list and, in the root exporter, `mtr.dst`. */
  datatype Report = Report(hubs: Option<seq<Hub>>, dst: Option<string>)

  /** The decoded document; `report` may be absent. */
  datatype MtrData = MtrData(report: Option<Report>)

  /** A normalised hop record of the primary exporter. */
  datatype Hop = Hop(
    hop: int,
    host: string,
    loss: real,
    sent: int,
    last: real,
    avg: real,
    best: real,
    worst: real,
    stddev: real)

  /** Python's `float(x)` of a JSON number. */
  function NumReal(n: Num): (r: real)
    ensures n.R? ==> r == n.r
    ensures n.I? ==> r == n.i as real
  {
    match n
    case I(i) => i as real
    case R(r) => r
  }

  /** Python's `str(x)` of a JSON number: integers exactly, floats through `repr`,
      which stands for Python's shortest round-trip float formatting. */
  function NumText(repr: real -> string, n: Num): string
  {
    match n
    case I(i) => IntToString(i)
    case R(r) => repr(r)
  }

  /** A hop answers probes when its loss is below 100 percent. */
  predicate Responding(h: Hop)
  {
    h.loss < 100.0
  }
}
