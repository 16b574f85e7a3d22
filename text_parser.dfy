/**
 * `parse_mtr_text_output`: reading the line-oriented layout of `mtr --report`
 * into hubs. The primary and the enhanced exporter behave the same on every
 * line, so one model serves both.
 *
 * A data line looks like `  1.|-- _gateway  0.0%  10  1.6  1.6  1.6  1.8  0.1`:
 * the hop index before the first `.`, the host, a loss token ending in `%`, and
 * then `Snt Last Avg Best Wrst [StDev]`.
 */
module TextParser {
  import opened Wrappers
  import opened Text
  import opened Numbers
  import opened Hops

  /** Why a line produced no hub. Every skip moves on to the next line. */
  datatype Skip =
    | Blank          // nothing but whitespace
    | Header         // `Start:` or `HOST:`
    | NotData        // no `|--`, and no `|` except at the very start
    | TooFewTokens   // fewer than 7 whitespace-separated tokens
    | BadHopNumber   // the text before the first `.` is not an integer
    | NoLossToken    // no token ends in `%`
    | TooFewValues   // fewer than 5 tokens after the loss token
    | BadNumber      // a loss or numeric value that does not convert

  datatype LineResult = Parsed(hub: Hub) | Skipped(reason: Skip)

  /** The numeric tail of a data line. */
  datatype Values = Values(sent: int, last: real, avg: real, best: real, worst: real, stddev: real)

  predicate IsHeader(line: string)
  {
    StartsWith(line, "Start:") || StartsWith(line, "HOST:")
  }

  predicate IsDataLine(line: string)
  {
    Contains(line, "|--") || ('|' in line && !StartsWith(line, "|"))
  }

  predicate IsLossToken(t: string)
  {
    |t| > 0 && t[|t| - 1] == '%'
  }

  /** The index of the first token ending in `%`, or `|parts|` when there is none. */
  function FirstLoss(parts: seq<string>): (k: nat)
    ensures k <= |parts|
    ensures k < |parts| ==> IsLossToken(parts[k])
    ensures forall j :: 0 <= j < k ==> !IsLossToken(parts[j])
  {
    if |parts| == 0 || IsLossToken(parts[0]) then 0 else 1 + FirstLoss(parts[1..])
  }

  /** `int(parts[0].split('.')[0].strip())`. The piece is cut from a token, so it has no
      whitespace for `strip()` or `int()` to remove (see `TokenConversions`). */
  function HopNumber(first: string): Option<int>
  {
    ParseInt(Split(first, '.')[0])
  }

  /** The host token, with the unknown host `???` named after its hop. */
  function HostName(t: string, n: int): string
  {
    if t == "???" then "hop_" + IntToString(n) else t
  }

  /** `float(part.rstrip('%'))` for the loss token. */
  function LossValue(t: string): Option<real>
  {
    ParseSigned(RStripChar(t, '%'))
  }

  /** `Snt` as an integer, the four times as floats and `StDev` when present, else 0.0.
      The values are tokens, which `int()` and `float()` read as they stand. */
  function ReadValues(vals: seq<string>): Option<Values>
    requires |vals| >= 5
  {
    var sent := ParseInt(vals[0]);
    var last := ParseSigned(vals[1]);
    var avg := ParseSigned(vals[2]);
    var best := ParseSigned(vals[3]);
    var worst := ParseSigned(vals[4]);
    var sd := if |vals| > 5 then ParseSigned(vals[5]) else Some(0.0);
    if sent.Some? && last.Some? && avg.Some? && best.Some? && worst.Some? && sd.Some? then
      Some(Values(sent.value, last.value, avg.value, best.value, worst.value, sd.value))
    else None
  }

  /** The hub dictionary the parser appends. */
  function MakeHub(n: int, host: string, loss: real, v: Values): Hub
  {
    Hub(Some(CInt(n)), Some(host), Some(R(loss)), Some(I(v.sent)), Some(R(v.last)),
        Some(R(v.avg)), Some(R(v.best)), Some(R(v.worst)), Some(R(v.stddev)))
  }

  /** The tokens of a data line: the token count and the hop prefix. */
  function ParseParts(parts: seq<string>): LineResult
  {
    if |parts| < 7 then Skipped(TooFewTokens)
    else
      match HopNumber(parts[0])
      case None => Skipped(BadHopNumber)
      case Some(n) => AfterHop(parts, n)
  }

  /** After the hop number: the host and the first token ending in `%`. */
  function AfterHop(parts: seq<string>, n: int): LineResult
    requires |parts| >= 2
  {
    var k := FirstLoss(parts);
    if k == |parts| then Skipped(NoLossToken)
    else
      match LossValue(parts[k])
      case None => Skipped(BadNumber)
      case Some(loss) => AfterLoss(n, HostName(parts[1], n), loss, parts[k + 1..])
  }

  /** After the loss token: at least five values, all of which convert. */
  function AfterLoss(n: int, host: string, loss: real, vals: seq<string>): LineResult
  {
    if |vals| < 5 then Skipped(TooFewValues)
    else
      match ReadValues(vals)
      case None => Skipped(BadNumber)
      case Some(v) => Parsed(MakeHub(n, host, loss, v))
  }

  /** One line of the report, as it comes out of `split('\n')`. */
  function LineOutcome(raw: string): LineResult
  {
    var line := Strip(raw);
    if |line| == 0 then Skipped(Blank)
    else if IsHeader(line) then Skipped(Header)
    else if !IsDataLine(line) then Skipped(NotData)
    else ParseParts(Words(line))
  }

  function HubsOf(r: LineResult): seq<Hub>
  {
    if r.Parsed? then [r.hub] else []
  }

  /** The hubs of a sequence of lines, in the order the lines come. */
  function ParsedHubs(lines: seq<string>): (hubs: seq<Hub>)
    ensures |hubs| <= |lines|
  {
    if |lines| == 0 then []
    else ParsedHubs(lines[..|lines| - 1]) + HubsOf(LineOutcome(lines[|lines| - 1]))
  }

  /** `text_output.strip().split('\n')`. */
  function Lines(text: string): seq<string>
  {
    Split(Strip(text), '\n')
  }

  /** The index of the first token ending in `%`, found by the `enumerate` loop. */
  method FindLoss(parts: seq<string>) returns (k: int)
    ensures k == if FirstLoss(parts) < |parts| then FirstLoss(parts) else -1
  {
    k := -1;
    for i := 0 to |parts|
      invariant k == -1
      invariant forall j :: 0 <= j < i ==> !IsLossToken(parts[j])
    {
      if IsLossToken(parts[i]) {
        k := i;
        break;
      }
    }
  }

  /** The body of the per-line loop: each `continue` of the source is a `return`
      of the reason the line is skipped. */
  method ParseLine(raw: string) returns (r: LineResult)
    ensures r == LineOutcome(raw)
  {
    var line := Strip(raw);
    if |line| == 0 {
      return Skipped(Blank);
    }
    if IsHeader(line) {
      return Skipped(Header);
    }
    if !IsDataLine(line) {
      return Skipped(NotData);
    }
    var parts := Words(line);
    if |parts| < 7 {
      return Skipped(TooFewTokens);
    }
    var hop := HopNumber(parts[0]);
    if hop.None? {
      return Skipped(BadHopNumber);
    }
    var n := hop.value;
    var host := HostName(parts[1], n);
    var k := FindLoss(parts);
    if k == -1 {
      return Skipped(NoLossToken);
    }
    var loss := LossValue(parts[k]);
    if loss.None? {
      return Skipped(BadNumber);
    }
    var vals := parts[k + 1..];
    if |vals| < 5 {
      return Skipped(TooFewValues);
    }
    var v := ReadValues(vals);
    if v.None? {
      return Skipped(BadNumber);
    }
    r := Parsed(MakeHub(n, host, loss.value, v.value));
  }

  /** `parse_mtr_text_output`: every line is read in turn; the ones that do not
      yield a hub are skipped and the loop goes on. */
  method ParseTextOutput(text: string) returns (data: MtrData)
    ensures data == MtrData(Some(Report(Some(ParsedHubs(Lines(text))), None)))
  {
    var lines := Lines(text);
    var hubs: seq<Hub> := [];
    for i := 0 to |lines|
      invariant hubs == ParsedHubs(lines[..i])
    {
      ParsedHubsStep(lines, i);
      var r := ParseLine(lines[i]);
      if r.Parsed? {
        hubs := hubs + [r.hub];
      }
    }
    assert lines[..|lines|] == lines;
    data := MtrData(Some(Report(Some(hubs), None)));
  }

  lemma ParsedHubsStep(lines: seq<string>, i: int)
    requires 0 <= i < |lines|
    ensures ParsedHubs(lines[..i + 1]) == ParsedHubs(lines[..i]) + HubsOf(LineOutcome(lines[i]))
  {
    assert lines[..i + 1][..i] == lines[..i];
  }

  // ---------------------------------------------------------------- properties

  /** Lines are read in order: the hubs of two runs of lines follow each other. */
  lemma {:induction false} ParsedHubsAppend(a: seq<string>, b: seq<string>)
    ensures ParsedHubs(a + b) == ParsedHubs(a) + ParsedHubs(b)
    decreases |b|
  {
    if |b| == 0 {
      assert a + b == a;
    } else {
      var b' := b[..|b| - 1];
      assert (a + b)[..|a + b| - 1] == a + b';
      assert (a + b)[|a + b| - 1] == b[|b| - 1];
      ParsedHubsAppend(a, b');
    }
  }

  /** Each line yields its own hub, if any, in its place; a skipped line yields nothing
      and the lines after it are still read. */
  lemma ParsedHubsAround(a: seq<string>, line: string, b: seq<string>)
    ensures ParsedHubs(a + [line] + b) == ParsedHubs(a) + HubsOf(LineOutcome(line)) + ParsedHubs(b)
  {
    ParsedHubsAppend(a + [line], b);
    ParsedHubsAppend(a, [line]);
    assert [line][..0] == [];
  }

  /** A line is skipped as blank exactly when it is all whitespace. */
  lemma BlankLine(raw: string)
    ensures LineOutcome(raw) == Skipped(Blank) <==> AllSpace(raw)
  {
    StripEmpty(raw);
    if |Strip(raw)| > 0 && !IsHeader(Strip(raw)) && IsDataLine(Strip(raw)) {
      TokensNeverBlank(Words(Strip(raw)));
    }
  }

  /** Only the line-level checks report a blank line. */
  lemma TokensNeverBlank(parts: seq<string>)
    ensures ParseParts(parts) != Skipped(Blank)
  {
    if |parts| >= 7 && HopNumber(parts[0]).Some? {
      var n := HopNumber(parts[0]).value;
      var k := FirstLoss(parts);
      if k < |parts| && LossValue(parts[k]).Some? {
        assert AfterHop(parts, n) == AfterLoss(n, HostName(parts[1], n), LossValue(parts[k]).value, parts[k + 1..]);
      }
    }
  }

  /** What a line must be to yield a hub: not blank, not a header, a data line with at
      least 7 tokens. Every other line is skipped. */
  lemma ParsedLine(raw: string)
    requires LineOutcome(raw).Parsed?
    ensures !AllSpace(raw)
    ensures !IsHeader(Strip(raw)) && IsDataLine(Strip(raw))
    ensures ParseParts(Words(Strip(raw))).Parsed?
  {
    StripEmpty(raw);
  }

  /** The tokens that yield a hub: an integer hop prefix, a loss token that converts,
      followed by at least 5 values that convert; the hub holds exactly those values. */
  lemma ParsedParts(parts: seq<string>)
    requires ParseParts(parts).Parsed?
    ensures |parts| >= 7 && HopNumber(parts[0]).Some? && FirstLoss(parts) + 5 < |parts|
    ensures LossValue(parts[FirstLoss(parts)]).Some?
    ensures ReadValues(parts[FirstLoss(parts) + 1..]).Some?
    ensures var n := HopNumber(parts[0]).value;
      ParseParts(parts).hub == MakeHub(n, HostName(parts[1], n), LossValue(parts[FirstLoss(parts)]).value,
                                       ReadValues(parts[FirstLoss(parts) + 1..]).value)
  {
    var n := HopNumber(parts[0]).value;
    assert ParseParts(parts) == AfterHop(parts, n);
    var k := FirstLoss(parts);
    var loss := LossValue(parts[k]).value;
    assert AfterHop(parts, n) == AfterLoss(n, HostName(parts[1], n), loss, parts[k + 1..]);
  }

  /** The unknown host `???` is named `hop_<n>`, and `<n>` reads back as the hop number. */
  lemma UnknownHost(n: int)
    ensures HostName("???", n) == "hop_" + IntToString(n)
    ensures ParseInt(HostName("???", n)[4..]) == Some(n)
  {
    assert HostName("???", n)[4..] == IntToString(n);
    IntToStringRoundTrip(n);
  }

  /** Five values after the loss token leave `StDev` at 0.0; a sixth is read as `StDev`. */
  lemma StdDevDefault(vals: seq<string>)
    requires |vals| >= 5 && ReadValues(vals).Some?
    ensures |vals| == 5 ==> ReadValues(vals).value.stddev == 0.0
    ensures |vals| > 5 ==> Some(ReadValues(vals).value.stddev) == ParseSigned(vals[5])
    ensures Some(ReadValues(vals).value.sent) == ParseInt(vals[0])
  {
  }

  /** `float()`, `int()` and `strip()` ignore surrounding whitespace, and a token of
      `split()` has none: reading the tokens as they stand is what the source does. */
  lemma TokenConversions(t: string)
    requires IsWord(t)
    ensures ParseFloat(t) == ParseSigned(t)
    ensures StrToInt(t) == ParseInt(t)
    ensures ParseFloat(RStripChar(t, '%')) == LossValue(t)
    ensures StrToInt(Strip(Split(t, '.')[0])) == HopNumber(t)
  {
    ParseFloatUnpadded(t);
    StripUnchanged(t);
    LossTokenConversion(t);
    HopTokenConversion(t);
  }

  lemma LossTokenConversion(t: string)
    requires IsWord(t)
    ensures ParseFloat(RStripChar(t, '%')) == LossValue(t)
  {
    var r := RStripChar(t, '%');
    assert forall i :: 0 <= i < |r| ==> r[i] == t[i];
    ParseFloatUnpadded(r);
  }

  lemma HopTokenConversion(t: string)
    requires IsWord(t)
    ensures StrToInt(Strip(Split(t, '.')[0])) == HopNumber(t)
  {
    var h := Split(t, '.')[0];
    SplitFirst(t, '.');
    assert forall i :: 0 <= i < |h| ==> h[i] == t[i];
    StripUnchanged(h);
  }

  /** `1.|--` has hop number 1. */
  lemma SampleHop()
    ensures HopNumber("1.|--") == Some(1)
  {
    assert "1.|--" == "1" + ['.'] + "|--";
    SplitAtSep("1", "|--", '.');
    ParseIntDigits("1");
  }

  /** `d.f` with one digit on each side reads as `d + f / 10`. */
  lemma OneDecimal(t: string, d: char, f: char)
    requires IsDigit(d) && IsDigit(f) && t == [d, '.', f]
    ensures ParseSigned(t) == Some(DigitValue(d) as real + DigitValue(f) as real / 10.0)
  {
    assert t == [d] + "." + [f];
    ParseUnsignedPoint([d], [f]);
    assert DigitsValue([d]) == DigitValue(d);
    assert DigitsValue([f]) == DigitValue(f);
    assert FracValue([f]) == Shift(DigitValue(f), 0) / 10.0;
    assert ParseSigned(t) == ParseUnsigned(t);
  }

  lemma SampleLoss()
    ensures LossValue("0.0%") == Some(0.0)
  {
    assert RStripChar("0.0%", '%') == "0.0";
    OneDecimal("0.0", '0', '0');
  }

  lemma SampleInt()
    ensures ParseInt("10") == Some(10)
  {
    ParseIntDigits("10");
    assert "10"[..1] == "1";
  }

  lemma SampleValues(vals: seq<string>)
    requires vals == ["10", "1.6", "1.6", "1.6", "1.8", "0.1"]
    ensures ReadValues(vals) == Some(Values(10, 1.6, 1.6, 1.6, 1.8, 0.1))
  {
    SampleInt();
    OneDecimal("1.6", '1', '6');
    OneDecimal("1.8", '1', '8');
    OneDecimal("0.1", '0', '1');
  }

  /** The sample data line `  1.|-- _gateway     0.0%    10    1.6   1.6   1.6   1.8   0.1`,
      split into its tokens, yields hop 1 at `_gateway` with loss 0.0, 10 sent, and
      Last/Avg/Best/Wrst/StDev 1.6/1.6/1.6/1.8/0.1. */
  lemma SampleLine(parts: seq<string>)
    requires parts == ["1.|--", "_gateway", "0.0%", "10", "1.6", "1.6", "1.6", "1.8", "0.1"]
    ensures ParseParts(parts) == Parsed(Hub(Some(CInt(1)), Some("_gateway"), Some(R(0.0)), Some(I(10)),
      Some(R(1.6)), Some(R(1.6)), Some(R(1.6)), Some(R(1.8)), Some(R(0.1))))
  {
    SampleHop();
    assert !IsLossToken(parts[0]) && !IsLossToken(parts[1]) && IsLossToken(parts[2]);
    assert FirstLoss(parts) == 2;
    SampleLoss();
    assert parts[3..] == ["10", "1.6", "1.6", "1.6", "1.8", "0.1"];
    SampleValues(parts[3..]);
  }

  /** The first and last characters of the sample data line. */
  lemma SampleEnds(line: string, words: seq<string>, gaps: seq<string>)
    requires words == ["1.|--", "_gateway", "0.0%", "10", "1.6", "1.6", "1.6", "1.8", "0.1"]
    requires gaps == [" ", "     ", "    ", "    ", "   ", "   ", "   ", "   "]
    requires line == JoinRuns(words, gaps)
    ensures |line| > 2 && line[0] == '1' && line[2] == '|' && line[|line| - 1] == '1'
  {
    assert line[..|words[0]|] == "1.|--";
    assert line[|line| - |words[8]|..] == "0.1";
  }

  /** The words of the sample data line are its nine words. */
  lemma SampleWords(line: string, words: seq<string>, gaps: seq<string>)
    requires words == ["1.|--", "_gateway", "0.0%", "10", "1.6", "1.6", "1.6", "1.8", "0.1"]
    requires gaps == [" ", "     ", "    ", "    ", "   ", "   ", "   ", "   "]
    requires line == JoinRuns(words, gaps)
    ensures Words(line) == words
  {
    SampleRuns(words, gaps);
    WordsOfJoinRuns(words, gaps);
  }

  /** The sample's words have no whitespace and its gaps are non-empty runs of spaces. */
  lemma SampleRuns(words: seq<string>, gaps: seq<string>)
    requires words == ["1.|--", "_gateway", "0.0%", "10", "1.6", "1.6", "1.6", "1.8", "0.1"]
    requires gaps == [" ", "     ", "    ", "    ", "   ", "   ", "   ", "   "]
    ensures Runs(words, gaps)
  {
    assert IsWord("1.|--") && IsWord("_gateway") && IsWord("0.0%") && IsWord("10");
    assert IsWord("1.6") && IsWord("1.8") && IsWord("0.1");
    assert AllSpace(" ") && AllSpace("   ") && AllSpace("    ") && AllSpace("     ");
  }

  /** An indented line whose text starts with a hop number and `|` is split into words. */
  lemma IndentedHopLine(lead: string, line: string)
    requires AllSpace(lead)
    requires |line| > 2 && !IsSpace(line[0]) && !IsSpace(line[|line| - 1])
    requires line[0] != '|' && line[0] != 'S' && line[0] != 'H' && line[2] == '|'
    ensures LineOutcome(lead + line) == ParseParts(Words(line))
  {
    StripPadded(lead, line);
    assert !StartsWith(line, "Start:") && !StartsWith(line, "HOST:") && !StartsWith(line, "|") by {
      assert line[..1][0] == line[0];
      if |line| >= 5 {
        assert line[..5][0] == line[0];
      }
      if |line| >= 6 {
        assert line[..6][0] == line[0];
      }
    }
    assert line[2] in line;
  }

  /** The sample data line quoted in the parser,
      `  1.|-- _gateway     0.0%    10    1.6   1.6   1.6   1.8   0.1`: two spaces of
      indentation, then its nine words with the runs of spaces between them as printed.
      Taken as it arrives it is a data line, and it parses to hub 1. */
  lemma SampleRawLine(raw: string, words: seq<string>, gaps: seq<string>)
    requires words == ["1.|--", "_gateway", "0.0%", "10", "1.6", "1.6", "1.6", "1.8", "0.1"]
    requires gaps == [" ", "     ", "    ", "    ", "   ", "   ", "   ", "   "]
    requires raw == "  " + JoinRuns(words, gaps)
    ensures LineOutcome(raw) == Parsed(Hub(Some(CInt(1)), Some("_gateway"), Some(R(0.0)), Some(I(10)),
      Some(R(1.6)), Some(R(1.6)), Some(R(1.6)), Some(R(1.8)), Some(R(0.1))))
  {
    var line := JoinRuns(words, gaps);
    SampleEnds(line, words, gaps);
    IndentedHopLine("  ", line);
    SampleWords(line, words, gaps);
    SampleLine(Words(line));
  }
}
