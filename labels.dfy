/**
 * Prometheus label sets: the character filter of `clean_hostname` and
 * `build_labels`, label dictionaries as insertion-ordered association lists,
 * and the `key="value"` text joined with commas.
 */
module Labels {
  import opened Wrappers
  import opened Text
  import opened Numbers

  // ---------------------------------------------------------------- cleaning

  /** `c.isalnum() or c in '-_.:/'`, with ASCII letters and digits. */
  predicate IsSafe(c: char)
  {
    ('a' <= c <= 'z') || ('A' <= c <= 'Z') || ('0' <= c <= '9') || c in "-_.:/"
  }

  predicate AllSafe(s: string)
  {
    forall i :: 0 <= i < |s| ==> IsSafe(s[i])
  }

  /** Spaces to `_`; quotes, newlines and tabs dropped; then only safe characters kept. */
  function CleanValue(v: string): (r: string)
    ensures AllSafe(r)
  {
    var s1 := ReplaceAll(v, " ", "_");
    var s2 := ReplaceAll(ReplaceAll(ReplaceAll(ReplaceAll(s1, "\"", ""), "'", ""), "\n", ""), "\t", "");
    Filter(s2, IsSafe)
  }

  /** Text already made of safe characters is left as it is. */
  lemma CleanValueSafe(v: string)
    requires AllSafe(v)
    ensures CleanValue(v) == v
  {
    ReplaceAllAbsent(v, " ", "_");
    ReplaceAllAbsent(v, "\"", "");
    ReplaceAllAbsent(v, "'", "");
    ReplaceAllAbsent(v, "\n", "");
    ReplaceAllAbsent(v, "\t", "");
    FilterKeepsAll(v, IsSafe);
  }

  /** Cleaning twice is cleaning once. */
  lemma CleanValueIdempotent(v: string)
    ensures CleanValue(CleanValue(v)) == CleanValue(v)
  {
    CleanValueSafe(CleanValue(v));
  }

  /** What cleaning makes of one character: a space becomes `_`, a safe character
      stays, and anything else is dropped. */
  function CleanChar(c: char): (r: string)
    ensures AllSafe(r) && |r| <= 1
  {
    if c == ' ' then "_" else if IsSafe(c) then [c] else ""
  }

  /** Cleaning works character by character, keeping the order. */
  lemma CleanValueAppend(a: string, b: string)
    ensures CleanValue(a + b) == CleanValue(a) + CleanValue(b)
  {
    ReplaceCharAppend(a, b, ' ', "_");
    var a1, b1 := ReplaceAll(a, " ", "_"), ReplaceAll(b, " ", "_");
    ReplaceCharAppend(a1, b1, '"', "");
    var a2, b2 := ReplaceAll(a1, "\"", ""), ReplaceAll(b1, "\"", "");
    ReplaceCharAppend(a2, b2, '\'', "");
    var a3, b3 := ReplaceAll(a2, "'", ""), ReplaceAll(b2, "'", "");
    ReplaceCharAppend(a3, b3, '\n', "");
    var a4, b4 := ReplaceAll(a3, "\n", ""), ReplaceAll(b3, "\n", "");
    ReplaceCharAppend(a4, b4, '\t', "");
    FilterAppend(ReplaceAll(a4, "\t", ""), ReplaceAll(b4, "\t", ""), IsSafe);
  }

  /** One character is cleaned as `CleanChar` says; with `CleanValueAppend` this fixes
      the whole result. */
  lemma CleanValueOne(c: char)
    ensures CleanValue([c]) == CleanChar(c)
  {
    ReplaceCharOne(c, ' ', "_");
    var s1 := if c == ' ' then "_" else [c];
    assert s1 == [s1[0]];
    ReplaceCharOne(s1[0], '"', "");
    var s2 := if s1[0] == '"' then "" else s1;
    if s2 != "" {
      ReplaceCharOne(s2[0], '\'', "");
    }
    var s3 := if s2 != "" && s2[0] == '\'' then "" else s2;
    if s3 != "" {
      ReplaceCharOne(s3[0], '\n', "");
    }
    var s4 := if s3 != "" && s3[0] == '\n' then "" else s3;
    if s4 != "" {
      ReplaceCharOne(s4[0], '\t', "");
    }
    var s5 := if s4 != "" && s4[0] == '\t' then "" else s4;
    assert ReplaceAll(ReplaceAll(ReplaceAll(ReplaceAll(s1, "\"", ""), "'", ""), "\n", ""), "\t", "") == s5;
    if s5 != "" {
      FilterOne(s5[0], IsSafe);
    }
  }

  /** Cleaning leaves nothing exactly when the text has no space and no safe character. */
  lemma {:induction false} CleanValueEmpty(v: string)
    ensures CleanValue(v) == "" <==> forall i :: 0 <= i < |v| ==> v[i] != ' ' && !IsSafe(v[i])
  {
    if |v| > 0 {
      assert v == [v[0]] + v[1..];
      CleanValueAppend([v[0]], v[1..]);
      CleanValueOne(v[0]);
      CleanValueEmpty(v[1..]);
      assert forall i :: 1 <= i < |v| ==> v[i] == v[1..][i - 1];
    }
  }

  /** `f'hop_{hop_num}'` */
  function HopName(n: int): (r: string)
    ensures |r| > 0
  {
    "hop_" + IntToString(n)
  }

  lemma IntToStringSafe(n: int)
    ensures AllSafe(IntToString(n))
  {
    IntToStringChars(n);
  }

  lemma HopNameSafe(n: int)
    ensures AllSafe(HopName(n))
  {
    IntToStringChars(n);
  }

  /** `clean_hostname`: `???` becomes `hop_<n>_silent`, the value is cleaned, and an
      empty result falls back to `hop_<n>`. */
  function CleanHostname(host: string, n: int): string
  {
    var c := CleanValue(ReplaceAll(host, "???", HopName(n) + "_silent"));
    if |c| == 0 then HopName(n) else c
  }

  /** A cleaned host name is never empty, holds only safe characters, and cleaning it
      again changes nothing. */
  lemma CleanHostnameProperties(host: string, n: int)
    ensures |CleanHostname(host, n)| > 0
    ensures AllSafe(CleanHostname(host, n))
    ensures CleanHostname(CleanHostname(host, n), n) == CleanHostname(host, n)
  {
    var c := CleanHostname(host, n);
    HopNameSafe(n);
    assert AllSafe(c);
    assert '?' !in c by {
      assert !IsSafe('?');
    }
    ReplaceAllAbsent(c, "???", HopName(n) + "_silent");
    CleanValueSafe(c);
  }

  /** The replacement for `???`. */
  function SilentName(n: int): (r: string)
    ensures AllSafe(r) && |r| > 0
  {
    HopNameSafe(n);
    HopName(n) + "_silent"
  }

  /** A host that is exactly `???` becomes `hop_<n>_silent`. */
  lemma CleanHostnameSilent(n: int)
    ensures CleanHostname("???", n) == HopName(n) + "_silent"
  {
    ReplaceAllFront("", "???", SilentName(n));
    assert "???" + "" == "???" && SilentName(n) + "" == SilentName(n);
    CleanValueSafe(SilentName(n));
  }

  /** The one `???` in `a + "???" + b` is the only thing `replace` changes. */
  lemma ReplaceMarker(a: string, b: string, rep: string)
    requires '?' !in a && '?' !in b
    ensures ReplaceAll(a + "???" + b, "???", rep) == a + rep + b
  {
    assert a + "???" + b == a + ("???" + b);
    ReplaceAllSkip(a, "???" + b, "???", rep);
    ReplaceAllFront(b, "???", rep);
    ReplaceAllAbsent(b, "???", rep);
    assert a + (rep + b) == a + rep + b;
  }

  /** `???` inside a host name is replaced by `hop_<n>_silent` and the text around it
      is cleaned. */
  lemma CleanHostnameMarker(a: string, b: string, n: int)
    requires '?' !in a && '?' !in b
    ensures CleanHostname(a + "???" + b, n) == CleanValue(a) + SilentName(n) + CleanValue(b)
  {
    var rep := SilentName(n);
    ReplaceMarker(a, b, rep);
    CleanAround(a, rep, b);
    var c := CleanValue(a) + rep + CleanValue(b);
    assert |c| > 0;
    assert CleanHostname(a + "???" + b, n) == c;
  }

  /** Safe text between two pieces passes through cleaning unchanged. */
  lemma CleanAround(a: string, rep: string, b: string)
    requires AllSafe(rep)
    ensures CleanValue(a + rep + b) == CleanValue(a) + rep + CleanValue(b)
  {
    CleanValueAppend(a + rep, b);
    CleanValueAppend(a, rep);
    CleanValueSafe(rep);
  }

  /** A host without `?` is cleaned, and falls back to `hop_<n>` exactly when cleaning
      leaves nothing, meaning it holds no space and no safe character. */
  lemma CleanHostnameFallback(host: string, n: int)
    requires '?' !in host
    ensures CleanHostname(host, n) == if CleanValue(host) == "" then HopName(n) else CleanValue(host)
    ensures CleanHostname(host, n) == HopName(n) <==>
      CleanValue(host) == HopName(n) || forall i :: 0 <= i < |host| ==> host[i] != ' ' && !IsSafe(host[i])
  {
    ReplaceAllAbsent(host, "???", SilentName(n));
    CleanValueEmpty(host);
  }

  // ---------------------------------------------------------------- dictionaries

  /** A dictionary with string keys and values, in insertion order. */
  type Dict = seq<(string, string)>

  function Keys(d: Dict): (ks: seq<string>)
    ensures |ks| == |d|
    ensures forall i :: 0 <= i < |d| ==> ks[i] == d[i].0
  {
    seq(|d|, i requires 0 <= i < |d| => d[i].0)
  }

  predicate UniqueKeys(d: Dict)
  {
    forall i, j :: 0 <= i < j < |d| ==> d[i].0 != d[j].0
  }

  /** The first position of `k` in `ks`, or `|ks|` when it is absent. */
  function Position(ks: seq<string>, k: string): (i: nat)
    ensures i <= |ks|
    ensures i < |ks| ==> ks[i] == k
    ensures forall j :: 0 <= j < i ==> ks[j] != k
  {
    if |ks| == 0 then 0 else if ks[0] == k then 0 else 1 + Position(ks[1..], k)
  }

  /** The entry holding key `k`, or `|d|` when there is none. */
  function IndexOf(d: Dict, k: string): (i: nat)
    ensures i <= |d|
    ensures i < |d| ==> d[i].0 == k
    ensures i == |d| <==> k !in Keys(d)
  {
    Position(Keys(d), k)
  }

  function Lookup(d: Dict, k: string): Option<string>
  {
    var i := IndexOf(d, k);
    if i < |d| then Some(d[i].1) else None
  }

  /** `d[k] = v`: a present key keeps its place and takes the new value; a new key
      goes at the end. */
  function Put(d: Dict, k: string, v: string): Dict
  {
    var i := IndexOf(d, k);
    if i < |d| then d[i := (k, v)] else d + [(k, v)]
  }

  /** `d.update(e)`: the entries of `e` assigned in order. */
  function UpdateAll(d: Dict, e: Dict): Dict
  {
    if |e| == 0 then d
    else
      var last := e[|e| - 1];
      Put(UpdateAll(d, e[..|e| - 1]), last.0, last.1)
  }

  /** The label dictionary of `build_labels`: custom labels, then `target`, then
      `probe`, then the extra labels. */
  function Merge(custom: Dict, target: string, probe: string, extra: Dict): Dict
  {
    UpdateAll(Put(Put(UpdateAll([], custom), "target", target), "probe", probe), extra)
  }

  /** The value the last entry of `e` with key `k` assigns, if any. */
  function LastValue(e: Dict, k: string): Option<string>
  {
    if |e| == 0 then None
    else if e[|e| - 1].0 == k then Some(e[|e| - 1].1)
    else LastValue(e[..|e| - 1], k)
  }

  /** Every value cleaned, keys kept. */
  function CleanValues(d: Dict): (r: Dict)
    ensures |r| == |d|
    ensures forall i :: 0 <= i < |d| ==> r[i] == (d[i].0, CleanValue(d[i].1))
  {
    seq(|d|, i requires 0 <= i < |d| => (d[i].0, CleanValue(d[i].1)))
  }

  /** `key="value"` */
  function Pair(k: string, v: string): string
  {
    k + "=\"" + v + "\""
  }

  /** `','.join(f'{key}="{value}"' for key, value in d.items())` */
  function LabelText(d: Dict): string
  {
    Join(seq(|d|, i requires 0 <= i < |d| => Pair(d[i].0, d[i].1)), ",")
  }

  // ---------------------------------------------------------------- build_labels

  /** `labels.update(e)` as a loop of assignments. */
  method Update(d: Dict, e: Dict) returns (r: Dict)
    ensures r == UpdateAll(d, e)
  {
    r := d;
    for i := 0 to |e|
      invariant r == UpdateAll(d, e[..i])
    {
      assert e[..i + 1][..i] == e[..i];
      r := Put(r, e[i].0, e[i].1);
    }
    assert e[..|e|] == e;
  }

  /** `build_labels` of the primary exporter: every value is cleaned. */
  method BuildLabels(custom: Dict, target: string, probe: string, extra: Dict) returns (s: string)
    ensures s == LabelText(CleanValues(Merge(custom, target, probe, extra)))
  {
    var labels := Update([], custom);
    labels := Put(labels, "target", target);
    labels := Put(labels, "probe", probe);
    labels := Update(labels, extra);
    var cleaned := CleanAll(labels);
    s := JoinPairs(cleaned);
  }

  /** The cleaning loop of `build_labels`. */
  method CleanAll(d: Dict) returns (r: Dict)
    ensures r == CleanValues(d)
  {
    r := [];
    for i := 0 to |d|
      invariant r == CleanValues(d[..i])
    {
      r := r + [(d[i].0, CleanValue(d[i].1))];
    }
    assert d[..|d|] == d;
  }

  /** `build_labels` of the enhanced exporter: the values are used as they are. */
  method BuildRawLabels(custom: Dict, target: string, probe: string, extra: Dict) returns (s: string)
    ensures s == LabelText(Merge(custom, target, probe, extra))
  {
    var labels := Update([], custom);
    labels := Put(labels, "target", target);
    labels := Put(labels, "probe", probe);
    labels := Update(labels, extra);
    s := JoinPairs(labels);
  }

  /** The `label_parts` comprehension, then the join. */
  method JoinPairs(d: Dict) returns (s: string)
    ensures s == LabelText(d)
  {
    var parts: seq<string> := [];
    for i := 0 to |d|
      invariant parts == seq(i, j requires 0 <= j < i => Pair(d[j].0, d[j].1))
    {
      parts := parts + [Pair(d[i].0, d[i].1)];
    }
    s := Join(parts, ",");
  }

  // ---------------------------------------------------------------- properties

  /** After `d[k] = v`, key `k` maps to `v` and every other key to what it mapped to. */
  lemma PutLookup(d: Dict, k: string, v: string, k': string)
    ensures Lookup(Put(d, k, v), k') == if k' == k then Some(v) else Lookup(d, k')
  {
    var i := IndexOf(d, k);
    var p := Put(d, k, v);
    if i < |d| {
      assert Keys(p) == Keys(d);
    } else {
      assert Keys(p) == Keys(d) + [k];
      if k' != k {
        var j := IndexOf(d, k');
        assert Keys(p)[..|d|] == Keys(d);
        if j < |d| {
          assert IndexOf(p, k') == j;
        } else {
          assert IndexOf(p, k') == |p|;
        }
      }
    }
  }

  /** `d[k] = v` keeps the order of the keys and appends a new key at the end. */
  lemma PutKeys(d: Dict, k: string, v: string)
    ensures Keys(Put(d, k, v)) == if k in Keys(d) then Keys(d) else Keys(d) + [k]
    ensures UniqueKeys(d) ==> UniqueKeys(Put(d, k, v))
  {
    if k in Keys(d) {
      assert Keys(Put(d, k, v)) == Keys(d);
    } else {
      assert Keys(Put(d, k, v)) == Keys(d) + [k];
    }
  }

  /** `d.update(e)`: a key takes the value of its last entry in `e`, and keeps its
      value in `d` when `e` does not mention it. */
  lemma {:induction false} UpdateAllLookup(d: Dict, e: Dict, k: string)
    ensures Lookup(UpdateAll(d, e), k) == if LastValue(e, k).Some? then LastValue(e, k) else Lookup(d, k)
  {
    if |e| > 0 {
      var last := e[|e| - 1];
      UpdateAllLookup(d, e[..|e| - 1], k);
      PutLookup(UpdateAll(d, e[..|e| - 1]), last.0, last.1, k);
    }
  }

  /** `d.update(e)` keeps the keys of `d` first, in their order. */
  lemma {:induction false} UpdateAllPrefix(d: Dict, e: Dict)
    ensures Keys(d) <= Keys(UpdateAll(d, e))
  {
    if |e| > 0 {
      var init := e[..|e| - 1];
      UpdateAllPrefix(d, init);
      PutKeys(UpdateAll(d, init), e[|e| - 1].0, e[|e| - 1].1);
    }
  }

  /** `d.update(e)` has the keys of `d` and of `e` and no others. */
  lemma {:induction false} UpdateAllKeys(d: Dict, e: Dict, k: string)
    ensures k in Keys(UpdateAll(d, e)) <==> k in Keys(d) || k in Keys(e)
  {
    if |e| > 0 {
      var init := e[..|e| - 1];
      UpdateAllKeys(d, init, k);
      PutKeys(UpdateAll(d, init), e[|e| - 1].0, e[|e| - 1].1);
      assert Keys(e) == Keys(init) + [e[|e| - 1].0];
    }
  }

  /** The keys of `es` that are not in `ks`, each where it first occurs in `es`. */
  function NewKeys(ks: seq<string>, es: seq<string>): (r: seq<string>)
    ensures forall i :: 0 <= i < |r| ==> r[i] in es && r[i] !in ks
  {
    if |es| == 0 then []
    else
      var init, k := es[..|es| - 1], es[|es| - 1];
      NewKeys(ks, init) + (if k in ks || k in init then [] else [k])
  }

  /** The full key order of `d.update(e)`: the keys of `d` in their order, then the new
      keys of `e` in the order they first appear. */
  lemma {:induction false} UpdateAllOrder(d: Dict, e: Dict)
    ensures Keys(UpdateAll(d, e)) == Keys(d) + NewKeys(Keys(d), Keys(e))
  {
    if |e| > 0 {
      var init, last := e[..|e| - 1], e[|e| - 1];
      var u := UpdateAll(d, init);
      UpdateAllOrder(d, init);
      UpdateAllKeys(d, init, last.0);
      PutKeys(u, last.0, last.1);
      assert Keys(e)[..|e| - 1] == Keys(init);
      assert Keys(e)[|e| - 1] == last.0;
    }
  }

  /** `d.update(e)` keeps keys unique. */
  lemma {:induction false} UpdateAllUnique(d: Dict, e: Dict)
    requires UniqueKeys(d)
    ensures UniqueKeys(UpdateAll(d, e))
  {
    if |e| > 0 {
      var init := e[..|e| - 1];
      UpdateAllUnique(d, init);
      PutKeys(UpdateAll(d, init), e[|e| - 1].0, e[|e| - 1].1);
    }
  }

  /** The merged label set: the custom labels come first in their order, `target`
      and `probe` are always present and hold the given values unless an extra label
      overrides them, and no key appears twice. */
  lemma MergeProperties(custom: Dict, target: string, probe: string, extra: Dict)
    ensures Keys(UpdateAll([], custom)) <= Keys(Merge(custom, target, probe, extra))
    ensures Lookup(Merge(custom, target, probe, extra), "target")
         == if LastValue(extra, "target").Some? then LastValue(extra, "target") else Some(target)
    ensures Lookup(Merge(custom, target, probe, extra), "probe")
         == if LastValue(extra, "probe").Some? then LastValue(extra, "probe") else Some(probe)
    ensures UniqueKeys(Merge(custom, target, probe, extra))
  {
    var c := UpdateAll([], custom);
    var t := Put(c, "target", target);
    var p := Put(t, "probe", probe);
    PutKeys(c, "target", target);
    PutKeys(t, "probe", probe);
    UpdateAllPrefix(p, extra);
    UpdateAllUnique([], custom);
    UpdateAllUnique(p, extra);
    PutLookup(c, "target", target, "target");
    PutLookup(t, "probe", probe, "target");
    PutLookup(t, "probe", probe, "probe");
    UpdateAllLookup(p, extra, "target");
    UpdateAllLookup(p, extra, "probe");
  }

  /** The merged label set has the custom keys, `target`, `probe` and the extra keys,
      and no others. */
  lemma MergeKeys(custom: Dict, target: string, probe: string, extra: Dict, k: string)
    ensures k in Keys(Merge(custom, target, probe, extra)) <==>
      k in Keys(custom) || k == "target" || k == "probe" || k in Keys(extra)
  {
    var c := UpdateAll([], custom);
    var t := Put(c, "target", target);
    var p := Put(t, "probe", probe);
    UpdateAllKeys([], custom, k);
    PutKeys(c, "target", target);
    PutKeys(t, "probe", probe);
    UpdateAllKeys(p, extra, k);
  }

  /** Adding `k` after `d.update(e)` to an empty dictionary puts it last unless `e` has it. */
  lemma PutAfterUpdate(e: Dict, k: string, v: string)
    ensures Keys(Put(UpdateAll([], e), k, v))
         == NewKeys([], Keys(e)) + (if k in Keys(e) then [] else [k])
  {
    FromEmptyOrder(e);
    FromEmptyKeys(e, k);
    PutKeys(UpdateAll([], e), k, v);
  }

  /** Updating an empty dictionary lists the keys of `e` once each, as they first appear. */
  lemma FromEmptyOrder(e: Dict)
    ensures Keys(UpdateAll([], e)) == NewKeys([], Keys(e))
  {
    UpdateAllOrder([], e);
    assert Keys([]) == [];
  }

  /** Updating an empty dictionary gives exactly the keys of `e`. */
  lemma FromEmptyKeys(e: Dict, k: string)
    ensures k in Keys(UpdateAll([], e)) <==> k in Keys(e)
  {
    UpdateAllKeys([], e, k);
  }

  /** The keys before the extra labels: the custom keys, then `target` and `probe` when new. */
  lemma MergeBase(custom: Dict, target: string, probe: string)
    ensures Keys(Put(Put(UpdateAll([], custom), "target", target), "probe", probe))
         == NewKeys([], Keys(custom))
          + (if "target" in Keys(custom) then [] else ["target"])
          + (if "probe" in Keys(custom) then [] else ["probe"])
  {
    var t := Put(UpdateAll([], custom), "target", target);
    PutAfterUpdate(custom, "target", target);
    UpdateAllKeys([], custom, "probe");
    PutKeys(UpdateAll([], custom), "target", target);
    PutKeys(t, "probe", probe);
  }

  /** The full key order of the merged label set: the custom keys, each where it first
      appears; then `target` and `probe` unless a custom label already has them; then
      the extra keys not seen before, each where it first appears. */
  lemma MergeOrder(custom: Dict, target: string, probe: string, extra: Dict)
    ensures var base := NewKeys([], Keys(custom))
        + (if "target" in Keys(custom) then [] else ["target"])
        + (if "probe" in Keys(custom) then [] else ["probe"]);
      Keys(Merge(custom, target, probe, extra)) == base + NewKeys(base, Keys(extra))
  {
    MergeBase(custom, target, probe);
    UpdateAllOrder(Put(Put(UpdateAll([], custom), "target", target), "probe", probe), extra);
  }

  /** A custom label that is neither `target`, `probe` nor an extra label keeps its
      value in the merged set. */
  lemma MergeCustom(custom: Dict, target: string, probe: string, extra: Dict, k: string)
    requires k != "target" && k != "probe" && LastValue(extra, k).None?
    ensures Lookup(Merge(custom, target, probe, extra), k) == LastValue(custom, k)
  {
    var c := UpdateAll([], custom);
    var t := Put(c, "target", target);
    var p := Put(t, "probe", probe);
    UpdateAllLookup([], custom, k);
    PutLookup(c, "target", target, k);
    PutLookup(t, "probe", probe, k);
    UpdateAllLookup(p, extra, k);
  }

  /** Cleaning keeps the keys and cleans what each key maps to. */
  lemma CleanValuesLookup(d: Dict, k: string)
    ensures Keys(CleanValues(d)) == Keys(d)
    ensures Lookup(CleanValues(d), k) == if Lookup(d, k).Some? then Some(CleanValue(Lookup(d, k).value)) else None
  {
    assert Keys(CleanValues(d)) == Keys(d);
  }

  /** The primary exporter's label text has a newline only where a key has one: values
      are cleaned of newlines, quotes and commas. */
  lemma CleanLabelTextNoNewline(d: Dict)
    requires forall i :: 0 <= i < |d| ==> '\n' !in d[i].0
    ensures '\n' !in LabelText(CleanValues(d))
  {
    var c := CleanValues(d);
    var parts := seq(|c|, i requires 0 <= i < |c| => Pair(c[i].0, c[i].1));
    forall i | 0 <= i < |c|
      ensures '\n' !in parts[i]
    {
      assert !IsSafe('\n');
      assert '\n' !in c[i].1;
    }
    JoinNoChar(parts, ",", '\n');
  }

  /** Cleaned values hold no quote, comma or space, so they cannot end the quoted
      label value early. */
  lemma CleanValueQuoted(v: string)
    ensures '"' !in CleanValue(v) && ',' !in CleanValue(v) && ' ' !in CleanValue(v) && '\n' !in CleanValue(v)
  {
    assert !IsSafe('"') && !IsSafe(',') && !IsSafe(' ') && !IsSafe('\n');
  }

  /** With no newline in keys or values, the label text has none. */
  lemma LabelTextNoNewline(d: Dict)
    requires forall i :: 0 <= i < |d| ==> '\n' !in d[i].0 && '\n' !in d[i].1
    ensures '\n' !in LabelText(d)
  {
    var parts := seq(|d|, i requires 0 <= i < |d| => Pair(d[i].0, d[i].1));
    assert forall i :: 0 <= i < |d| ==> '\n' !in parts[i];
    JoinNoChar(parts, ",", '\n');
  }
}
