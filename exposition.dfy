/**
 * The checks and finishing steps the primary exporter applies to rendered
 * metrics: `validate_prometheus_metrics`, the removal of blank lines, the
 * joining of several probes' metrics, and `atomic_write_metrics` with its
 * trailing-newline rule.
 */
module Exposition {
  import opened Wrappers
  import opened Text
  import opened Numbers

  // ---------------------------------------------------------------- validation

  /** The position of the last `c` in `s`, or -1 when there is none. */
  function LastIndex(s: string, c: char): (k: int)
    ensures -1 <= k < |s|
    ensures k >= 0 ==> s[k] == c
    ensures forall j :: k < j < |s| ==> s[j] != c
  {
    if |s| == 0 then -1 else if s[|s| - 1] == c then |s| - 1 else LastIndex(s[..|s| - 1], c)
  }

  /** The second part of `line.rsplit(' ', 1)` for a line holding a space. */
  function ValuePart(line: string): string
  {
    line[LastIndex(line, ' ') + 1..]
  }

  /** A line the validator accepts: not blank once stripped, holding a space, and
      with a float after its last space. */
  predicate ValidLine(raw: string)
  {
    var line := Strip(raw);
    |line| > 0 && ' ' in line && ParseFloat(ValuePart(line)).Some?
  }

  /** `metrics_content.strip().split('\n')` */
  function MetricsLines(content: string): seq<string>
  {
    Split(Strip(content), '\n')
  }

  predicate ValidText(content: string)
  {
    forall i :: 0 <= i < |MetricsLines(content)| ==> ValidLine(MetricsLines(content)[i])
  }

  /** The checks `validate_prometheus_metrics` makes on one line, in its order. */
  method CheckLine(raw: string) returns (ok: bool)
    ensures ok == ValidLine(raw)
  {
    var line := Strip(raw);
    if |line| == 0 {
      return false;
    }
    if ' ' !in line {
      return false;
    }
    var value := ValuePart(line);
    if ParseFloat(value).None? {
      return false;
    }
    return true;
  }

  /** `validate_prometheus_metrics`: the first bad line rejects the text. */
  method Validate(content: string) returns (ok: bool)
    ensures ok <==> ValidText(content)
  {
    var lines := Split(Strip(content), '\n');
    assert lines == MetricsLines(content);
    for i := 0 to |lines|
      invariant forall j :: 0 <= j < i ==> ValidLine(lines[j])
    {
      var good := CheckLine(lines[i]);
      if !good {
        return false;
      }
      forall j | 0 <= j < i + 1
        ensures ValidLine(lines[j])
      {
        if j == i {
        }
      }
    }
    return true;
  }

  /** A line that needs no stripping and cannot be split further. */
  predicate Tidy(line: string)
  {
    |line| > 0 && !IsSpace(line[0]) && !IsSpace(line[|line| - 1]) && '\n' !in line
  }

  /** A blank line anywhere makes the text invalid. */
  lemma BlankRejected(content: string, i: int)
    requires 0 <= i < |MetricsLines(content)| && AllSpace(MetricsLines(content)[i])
    ensures !ValidText(content)
  {
    StripEmpty(MetricsLines(content)[i]);
  }

  /** In particular an empty or all-whitespace text is invalid. */
  lemma EmptyRejected(content: string)
    requires AllSpace(content)
    ensures !ValidText(content)
  {
    StripEmpty(content);
    assert MetricsLines(content) == [""];
    BlankRejected(content, 0);
  }

  /** `<prefix> <value>` is a valid, tidy line when the prefix starts with a
      non-space and the value is a float literal. */
  lemma MetricLineValid(prefix: string, value: string)
    requires |prefix| > 0 && !IsSpace(prefix[0]) && '\n' !in prefix
    requires ParseSigned(value).Some?
    ensures ValidLine(prefix + " " + value) && Tidy(prefix + " " + value)
  {
    SignedNoSpace(value);
    var line := prefix + " " + value;
    assert line[|line| - 1] == value[|value| - 1];
    StripUnchanged(line);
    assert line[|prefix|] == ' ';
    assert ValuePart(line) == value;
    ParseFloatUnpadded(value);
    assert '\n' !in line by {
      assert !IsSpace(' ') ==> false;
      assert forall j :: 0 <= j < |value| ==> value[j] != '\n';
    }
  }

  /** Tidy lines joined with newlines need no stripping. */
  lemma TidyJoinStripped(lines: seq<string>)
    requires |lines| > 0
    requires forall i :: 0 <= i < |lines| ==> Tidy(lines[i])
    ensures Strip(Join(lines, "\n")) == Join(lines, "\n")
  {
    var text := Join(lines, "\n");
    var first, last := lines[0], lines[|lines| - 1];
    assert Tidy(first) && Tidy(last);
    JoinEnds(lines, "\n");
    assert !IsSpace(text[0]) && !IsSpace(text[|text| - 1]);
    StripUnchanged(text);
  }

  /** Tidy lines joined with newlines are read back by the validator as exactly
      those lines. */
  lemma TidyLines(lines: seq<string>)
    requires |lines| > 0
    requires forall i :: 0 <= i < |lines| ==> Tidy(lines[i])
    ensures MetricsLines(Join(lines, "\n")) == lines
  {
    TidyJoinStripped(lines);
    SplitJoinLines(lines, '\n');
  }

  /** Tidy valid lines joined with newlines form a valid text. */
  lemma LinesValid(lines: seq<string>)
    requires |lines| > 0
    requires forall i :: 0 <= i < |lines| ==> Tidy(lines[i]) && ValidLine(lines[i])
    ensures ValidText(Join(lines, "\n"))
  {
    TidyLines(lines);
    var text := Join(lines, "\n");
    forall i | 0 <= i < |lines|
      ensures ValidLine(MetricsLines(text)[i])
    {
      assert MetricsLines(text)[i] == lines[i];
    }
  }

  // ---------------------------------------------------------------- blank lines

  /** The lines for which `line.strip()` is not empty, in order. */
  function NonBlank(lines: seq<string>): (r: seq<string>)
    ensures forall i :: 0 <= i < |r| ==> !AllSpace(r[i]) && r[i] in lines
  {
    if |lines| == 0 then []
    else (if AllSpace(lines[0]) then [] else [lines[0]]) + NonBlank(lines[1..])
  }

  /** `'\n'.join(line for line in text.split('\n') if line.strip())` */
  function CleanBlankLines(text: string): string
  {
    Join(NonBlank(Split(text, '\n')), "\n")
  }

  /** Nothing is removed from lines none of which is blank. */
  lemma {:induction false} NonBlankKeepsAll(lines: seq<string>)
    requires forall i :: 0 <= i < |lines| ==> !AllSpace(lines[i])
    ensures NonBlank(lines) == lines
  {
    if |lines| > 0 {
      NonBlankKeepsAll(lines[1..]);
    }
  }

  /** Everything is removed exactly when every line is blank. */
  lemma {:induction false} NonBlankEmpty(lines: seq<string>)
    ensures NonBlank(lines) == [] <==> forall i :: 0 <= i < |lines| ==> AllSpace(lines[i])
  {
    if |lines| > 0 {
      NonBlankEmpty(lines[1..]);
      assert forall i :: 1 <= i < |lines| ==> lines[i] == lines[1..][i - 1];
    }
  }

  /** Filtering a concatenation filters each part, keeping their order. */
  lemma {:induction false} NonBlankAppend(a: seq<string>, b: seq<string>)
    ensures NonBlank(a + b) == NonBlank(a) + NonBlank(b)
  {
    if |a| == 0 {
      assert a + b == b;
    } else {
      assert (a + b)[0] == a[0];
      assert (a + b)[1..] == a[1..] + b;
      NonBlankAppend(a[1..], b);
    }
  }

  /** A single line is kept exactly when it is not blank; with `NonBlankAppend` this
      says every non-blank line is kept, in order, and no other. */
  lemma NonBlankOne(line: string)
    ensures NonBlank([line]) == if AllSpace(line) then [] else [line]
  {
    assert [line][1..] == [];
  }

  /** A line survives exactly when it occurs among the input lines and is not blank. */
  lemma {:induction false} NonBlankMembers(lines: seq<string>, line: string)
    ensures line in NonBlank(lines) <==> line in lines && !AllSpace(line)
  {
    if |lines| > 0 {
      NonBlankMembers(lines[1..], line);
      assert lines == [lines[0]] + lines[1..];
    }
  }

  /** The lines kept, split again, are the lines kept; they are not empty either. */
  lemma KeptLines(text: string)
    requires NonBlank(Split(text, '\n')) != []
    ensures Split(CleanBlankLines(text), '\n') == NonBlank(Split(text, '\n'))
    ensures CleanBlankLines(text) != ""
  {
    var kept := NonBlank(Split(text, '\n'));
    assert forall i :: 0 <= i < |kept| ==> '\n' !in kept[i];
    SplitJoinLines(kept, '\n');
    assert kept[|kept| - 1] != "";
    JoinEnds(kept, "\n");
  }

  /** After cleaning no line is blank; the result is empty exactly when every line
      was blank (and then it splits into one empty line). */
  lemma CleanNoBlank(text: string)
    ensures CleanBlankLines(text) == "" <==>
      forall i :: 0 <= i < |Split(text, '\n')| ==> AllSpace(Split(text, '\n')[i])
    ensures CleanBlankLines(text) != "" ==>
      forall i :: 0 <= i < |Split(CleanBlankLines(text), '\n')| ==> !AllSpace(Split(CleanBlankLines(text), '\n')[i])
  {
    NonBlankEmpty(Split(text, '\n'));
    if NonBlank(Split(text, '\n')) != [] {
      KeptLines(text);
    }
  }

  /** Cleaning twice is cleaning once. */
  lemma CleanIdempotent(text: string)
    ensures CleanBlankLines(CleanBlankLines(text)) == CleanBlankLines(text)
  {
    var kept := NonBlank(Split(text, '\n'));
    if kept != [] {
      KeptLines(text);
      NonBlankKeepsAll(kept);
    } else {
      assert Split("", '\n') == [""];
      assert AllSpace("");
    }
  }

  /** Text made of tidy lines is left as it is. */
  lemma CleanTidy(lines: seq<string>)
    requires |lines| > 0 && forall i :: 0 <= i < |lines| ==> Tidy(lines[i])
    ensures CleanBlankLines(Join(lines, "\n")) == Join(lines, "\n")
  {
    SplitJoinLines(lines, '\n');
    forall i | 0 <= i < |lines|
      ensures !AllSpace(lines[i])
    {
      assert !IsSpace(lines[i][0]);
    }
    NonBlankKeepsAll(lines);
  }

  /** Every line of `text` is blank or tidy and valid. */
  predicate BlankOrValid(text: string)
  {
    forall i :: 0 <= i < |Split(text, '\n')| ==>
      AllSpace(Split(text, '\n')[i]) || (Tidy(Split(text, '\n')[i]) && ValidLine(Split(text, '\n')[i]))
  }

  /** When every non-blank line is tidy and valid, the cleaned text passes the
      validator unless nothing is left. */
  lemma CleanedValidates(text: string)
    requires BlankOrValid(text)
    ensures CleanBlankLines(text) != "" ==> ValidText(CleanBlankLines(text))
  {
    var kept := NonBlank(Split(text, '\n'));
    if kept != [] {
      LinesValid(kept);
    }
  }

  // ---------------------------------------------------------------- several probes

  /** The combined file of the multi-probe mode: the probes' texts joined with
      newlines, then cleaned of blank lines. */
  function CombineProbes(all: seq<string>): string
  {
    CleanBlankLines(Join(all, "\n"))
  }

  lemma {:induction false} ConcatMember(xss: seq<seq<string>>, k: int)
    requires 0 <= k < |Concat(xss)|
    ensures exists i, j :: 0 <= i < |xss| && 0 <= j < |xss[i]| && Concat(xss)[k] == xss[i][j]
  {
    if k < |xss[0]| {
      assert Concat(xss)[k] == xss[0][k];
    } else {
      ConcatMember(xss[1..], k - |xss[0]|);
      var i, j :| 0 <= i < |xss[1..]| && 0 <= j < |xss[1..][i]| && Concat(xss[1..])[k - |xss[0]|] == xss[1..][i][j];
      assert Concat(xss)[k] == xss[i + 1][j];
    }
  }

  /** When every probe's text is made of blank lines and tidy valid lines, so is
      their combination, and the combined file passes the validator unless it is
      empty. */
  lemma CombineValid(all: seq<string>)
    requires |all| > 0
    requires forall p :: 0 <= p < |all| ==> BlankOrValid(all[p])
    ensures BlankOrValid(Join(all, "\n"))
    ensures CombineProbes(all) != "" ==> ValidText(CombineProbes(all))
  {
    var text := Join(all, "\n");
    SplitJoin(all, '\n');
    var each := SplitEach(all, '\n');
    forall k | 0 <= k < |Split(text, '\n')|
      ensures AllSpace(Split(text, '\n')[k]) || (Tidy(Split(text, '\n')[k]) && ValidLine(Split(text, '\n')[k]))
    {
      ConcatMember(each, k);
    }
    CleanedValidates(text);
  }

  // ---------------------------------------------------------------- writing

  /** What `atomic_write_metrics` puts in the file: a newline is appended unless the
      content already ends with one. */
  function WithTrailingNewline(content: string): string
  {
    if EndsWith(content, "\n") then content else content + "\n"
  }

  /** The written text always ends with a newline, gains at most that one character,
      keeps the content as its prefix, and reads the same to the validator. */
  lemma TrailingNewline(content: string)
    ensures EndsWith(WithTrailingNewline(content), "\n")
    ensures |WithTrailingNewline(content)| <= |content| + 1
    ensures WithTrailingNewline(content)[..|content|] == content
    ensures WithTrailingNewline(WithTrailingNewline(content)) == WithTrailingNewline(content)
    ensures ValidText(WithTrailingNewline(content)) == ValidText(content)
  {
    if !EndsWith(content, "\n") {
      var w := content + "\n";
      assert w[|w| - 1..] == "\n";
      StripTrailingSpace(content, '\n');
      assert MetricsLines(w) == MetricsLines(content);
    }
  }

  /** Where `atomic_write_metrics` can raise: writing or syncing the temporary file,
      the rename, or the `chmod` after it. */
  datatype Fault = NoFault | WriteFault | RenameFault | ChmodFault

  /** The two files `atomic_write_metrics` touches: the temporary file in the output
      directory and the destination. `None` is a file that does not exist. */
  class MetricsFiles {
    var temp: Option<string>
    var dest: Option<string>

    constructor(existing: Option<string>)
      ensures temp == None && dest == existing
    {
      temp := None;
      dest := existing;
    }

    /** `atomic_write_metrics`: the destination is replaced whole or not at all, and
        the temporary file never survives. */
    method AtomicWrite(content: string, fault: Fault) returns (ok: bool)
      modifies this
      ensures temp == None
      ensures ok <==> fault == NoFault
      ensures fault == WriteFault || fault == RenameFault ==> dest == old(dest)
      ensures fault == NoFault || fault == ChmodFault ==> dest == Some(WithTrailingNewline(content))
    {
      temp := Some(content);
      if !EndsWith(content, "\n") {
        temp := Some(content + "\n");
      }
      if fault == WriteFault {
        temp := None;
        return false;
      }
      if fault == RenameFault {
        temp := None;
        return false;
      }
      dest := temp;
      temp := None;
      if fault == ChmodFault {
        return false;
      }
      return true;
    }
  }
}
