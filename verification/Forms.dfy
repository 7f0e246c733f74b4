/** The rule form: what it shows of a rule, and what it reads back. */
module Forms {
  import opened Prelude
  import opened Texts
  import opened Channels

  datatype Pair = Pair(key: string, value: string)

  // ------------------------------------------------------------- one line

  /** Where c first occurs in s, or |s|. */
  function IndexOf(s: string, c: char): nat {
    if s == [] || s[0] == c then 0 else 1 + IndexOf(s[1..], c)
  }

  lemma {:induction false} IndexOfFacts(s: string, c: char)
    ensures IndexOf(s, c) <= |s| && c !in s[..IndexOf(s, c)]
    ensures IndexOf(s, c) < |s| ==> s[IndexOf(s, c)] == c
    ensures c in s ==> IndexOf(s, c) < |s|
  {
    if s != [] && s[0] != c {
      IndexOfFacts(s[1..], c);
      var i := IndexOf(s[1..], c);
      assert s[..1 + i] == [s[0]] + s[1..][..i];
      assert s == [s[0]] + s[1..];
    }
  }

  lemma {:induction false} IndexOfAfter(a: string, rest: string, c: char)
    requires c !in a
    ensures IndexOf(a + [c] + rest, c) == |a|
  {
    var s := a + [c] + rest;
    if a != [] {
      assert s[1..] == a[1..] + [c] + rest;
      IndexOfAfter(a[1..], rest, c);
    }
  }

  /** A "key=value" line, trimmed on both sides of the first '='. */
  function ParseLine(line: string): Option<Pair> {
    var l := Trim(line);
    IndexOfFacts(l, '=');
    var i := IndexOf(l, '=');
    if i == |l| then None else Some(Pair(Trim(l[..i]), Trim(l[i + 1..])))
  }

  function Pairs(lines: seq<string>): seq<Pair> {
    if lines == [] then []
    else match ParseLine(Last(lines))
      case Some(p) => Pairs(Init(lines)) + [p]
      case None => Pairs(Init(lines))
  }

  /** A pair that survives being printed on a line of its own. */
  predicate TidyPair(p: Pair) {
    '=' !in p.key && Trimmed(p.key) && Trimmed(p.value) && '\n' !in p.key && '\n' !in p.value
  }

  function PairLine(p: Pair): string {
    p.key + "=" + p.value
  }

  lemma ParsedTidy(line: string)
    requires '\n' !in line
    ensures ParseLine(line).Some? ==> TidyPair(ParseLine(line).value)
  {
    var l := Trim(line);
    TrimTrimmed(line);
    IndexOfFacts(l, '=');
    var i := IndexOf(l, '=');
    if i < |l| {
      TrimTrimmed(l[..i]);
      TrimTrimmed(l[i + 1..]);
    }
  }

  lemma PairLineReads(p: Pair, end: string)
    requires TidyPair(p) && Blank(end)
    ensures ParseLine(PairLine(p) + end) == Some(p)
  {
    var line := PairLine(p);
    assert Trimmed(line) by {
      assert line[0] == if p.key == "" then '=' else p.key[0];
      assert Last(line) == if p.value == "" then '=' else Last(p.value);
    }
    TrimPadded("", line, end);
    assert "" + line + end == line + end;
    assert line == p.key + ['='] + p.value;
    IndexOfAfter(p.key, p.value, '=');
    assert line[..|p.key|] == p.key && line[|p.key| + 1..] == p.value;
    TrimIdentity(p.key);
    TrimIdentity(p.value);
  }

  lemma {:induction false} PairsTidy(lines: seq<string>)
    requires forall l | l in lines :: '\n' !in l
    ensures forall p | p in Pairs(lines) :: TidyPair(p)
  {
    if lines != [] {
      PairsTidy(Init(lines));
      ParsedTidy(Last(lines));
    }
  }

  // ---------------------------------------------------------- whole texts

  function PairLines(ps: seq<Pair>): seq<string> {
    if ps == [] then [] else PairLines(Init(ps)) + [PairLine(Last(ps))]
  }

  /** How a text area comes back: its line breaks as they were, or as CRLF. */
  function Resent(text: string, crlf: bool): string {
    if text == [] then []
    else (if crlf && text[0] == '\n' then "\r\n" else [text[0]]) + Resent(text[1..], crlf)
  }

  lemma {:induction false} ResentPlain(a: string, rest: string, crlf: bool)
    requires '\n' !in a
    ensures Resent(a + rest, crlf) == a + Resent(rest, crlf)
  {
    if a == [] {
      assert a + rest == rest;
    } else {
      assert (a + rest)[1..] == a[1..] + rest;
      ResentPlain(a[1..], rest, crlf);
      assert a == [a[0]] + a[1..];
    }
  }

  /** The lines with the carriage return each but the last may have gained. */
  function Returned(lines: seq<string>, crlf: bool): seq<string> {
    if |lines| <= 1 then lines
    else [lines[0] + (if crlf then "\r" else "")] + Returned(lines[1..], crlf)
  }

  lemma {:induction false} ReturnedPlain(lines: seq<string>, crlf: bool)
    requires forall l | l in lines :: '\n' !in l
    ensures |Returned(lines, crlf)| == |lines|
    ensures forall l | l in Returned(lines, crlf) :: '\n' !in l
  {
    if |lines| > 1 { ReturnedPlain(lines[1..], crlf); }
  }

  lemma ResentLine(l: string, rest: string, crlf: bool)
    requires '\n' !in l
    ensures Resent(l + "\n" + rest, crlf) == (l + (if crlf then "\r" else "")) + "\n" + Resent(rest, crlf)
  {
    ResentPlain(l, "\n" + rest, crlf);
    assert l + "\n" + rest == l + ("\n" + rest);
    assert ("\n" + rest)[1..] == rest;
    var end := if crlf then "\r" else "";
    assert l + (end + "\n" + Resent(rest, crlf)) == (l + end) + "\n" + Resent(rest, crlf);
  }

  lemma {:induction false} ResentJoin(lines: seq<string>, crlf: bool)
    requires forall l | l in lines :: '\n' !in l
    ensures Resent(Join(lines, "\n"), crlf) == Join(Returned(lines, crlf), "\n")
  {
    if |lines| == 1 {
      ResentPlain(lines[0], "", crlf);
      assert lines[0] + "" == lines[0];
    } else if lines != [] {
      var l, rest := lines[0], Join(lines[1..], "\n");
      ResentJoin(lines[1..], crlf);
      ReturnedPlain(lines[1..], crlf);
      ResentLine(l, rest, crlf);
      assert Returned(lines, crlf)[1..] == Returned(lines[1..], crlf);
    }
  }

  lemma {:induction false} ReturnedAt(lines: seq<string>, crlf: bool, i: nat)
    requires i < |lines|
    ensures |Returned(lines, crlf)| == |lines|
    ensures Returned(lines, crlf)[i] == lines[i] || Returned(lines, crlf)[i] == lines[i] + "\r"
  {
    if |lines| > 1 {
      assert lines[0] + "" == lines[0];
      if i > 0 {
        ReturnedAt(lines[1..], crlf, i - 1);
      } else {
        ReturnedAt(lines[1..], crlf, 0);
      }
    }
  }

  lemma {:induction false} PairLinesFacts(ps: seq<Pair>)
    ensures |PairLines(ps)| == |ps| && forall i | 0 <= i < |ps| :: PairLines(ps)[i] == PairLine(ps[i])
  {
    if ps != [] { PairLinesFacts(Init(ps)); }
  }

  lemma {:induction false} ReadLines(ps: seq<Pair>, lines: seq<string>)
    requires (forall p | p in ps :: TidyPair(p)) && |lines| == |ps|
    requires forall i | 0 <= i < |ps| :: lines[i] == PairLine(ps[i]) || lines[i] == PairLine(ps[i]) + "\r"
    ensures Pairs(lines) == ps
  {
    if ps != [] {
      assert Last(ps) in ps;
      ReadLines(Init(ps), Init(lines));
      ReadLine(Last(ps), Last(lines));
      assert ps == Init(ps) + [Last(ps)];
    }
  }

  lemma ReadLine(p: Pair, line: string)
    requires TidyPair(p) && (line == PairLine(p) || line == PairLine(p) + "\r")
    ensures ParseLine(line) == Some(p)
  {
    PairLineReads(p, "");
    PairLineReads(p, "\r");
    assert PairLine(p) + "" == PairLine(p);
  }

  /** Tidy pairs, printed one per line, come back as they were, whichever way
      the browser breaks lines. */
  lemma PairsRoundTrip(ps: seq<Pair>, crlf: bool)
    requires forall p | p in ps :: TidyPair(p)
    ensures Pairs(Split(Resent(Join(PairLines(ps), "\n"), crlf), '\n')) == ps
  {
    var lines := PairLines(ps);
    PairLinesFacts(ps);
    forall l | l in lines ensures '\n' !in l {
      var i :| 0 <= i < |lines| && lines[i] == l;
      assert TidyPair(ps[i]);
    }
    ResentJoin(lines, crlf);
    ReturnedPlain(lines, crlf);
    if ps == [] {
      assert Split("", '\n') == [""] && Init([""]) == [];
    } else {
      var returned := Returned(lines, crlf);
      SplitJoin(returned, '\n');
      forall i | 0 <= i < |ps| ensures returned[i] == PairLine(ps[i]) || returned[i] == PairLine(ps[i]) + "\r" {
        ReturnedAt(lines, crlf, i);
      }
      ReadLines(ps, returned);
    }
  }

  // ---------------------------------------------------------------- labels

  function Collect(ps: seq<Pair>): map<string, string> {
    if ps == [] then map[] else Collect(Init(ps))[Last(ps).key := Last(ps).value]
  }

  function Labels(raw: string): map<string, string> {
    Collect(Pairs(Split(raw, '\n')))
  }

  function Listed(keys: seq<string>, labels: map<string, string>): seq<Pair>
    requires forall k | k in keys :: k in labels
  {
    seq(|keys|, i requires 0 <= i < |keys| => assert keys[i] in keys; Pair(keys[i], labels[keys[i]]))
  }

  lemma SortedKeys(labels: map<string, string>)
    ensures forall k :: k in SortedList(labels.Keys) <==> k in labels
  {
    SortedListFacts(labels.Keys);
    forall k ensures k in SortedList(labels.Keys) <==> k in labels {
      assert k in SortedList(labels.Keys) <==> k in multiset(SortedList(labels.Keys));
    }
  }

  ghost function LabelPairs(labels: map<string, string>): seq<Pair> {
    SortedKeys(labels);
    Listed(SortedList(labels.Keys), labels)
  }

  ghost function LabelsText(labels: map<string, string>): string {
    Join(PairLines(LabelPairs(labels)), "\n")
  }

  lemma {:induction false} CollectFacts(ps: seq<Pair>)
    ensures forall k :: k in Collect(ps) <==> exists p :: p in ps && p.key == k
    ensures forall k | k in Collect(ps) :: Pair(k, Collect(ps)[k]) in ps
  {
    if ps != [] {
      CollectFacts(Init(ps));
      assert ps == Init(ps) + [Last(ps)];
    }
  }

  lemma LabelPairsCollect(labels: map<string, string>)
    ensures Collect(LabelPairs(labels)) == labels
  {
    var ps, keys := LabelPairs(labels), SortedList(labels.Keys);
    CollectFacts(ps);
    SortedKeys(labels);
    forall k ensures k in Collect(ps) <==> k in labels {
      if k in labels {
        var i :| 0 <= i < |keys| && keys[i] == k;
        assert ps[i] in ps && ps[i].key == k;
      }
    }
    forall k | k in labels ensures Collect(ps)[k] == labels[k] {
      assert Pair(k, Collect(ps)[k]) in ps;
    }
  }

  predicate TidyLabels(labels: map<string, string>) {
    forall k | k in labels :: TidyPair(Pair(k, labels[k]))
  }

  lemma LabelsTidy(raw: string)
    ensures TidyLabels(Labels(raw))
  {
    SplitParts(raw, '\n');
    PairsTidy(Split(raw, '\n'));
    CollectFacts(Pairs(Split(raw, '\n')));
  }

  /** Printing labels through the key sort and reading them back. */
  lemma LabelsRoundTrip(labels: map<string, string>, crlf: bool)
    requires TidyLabels(labels)
    ensures Labels(Resent(LabelsText(labels), crlf)) == labels
  {
    var ps := LabelPairs(labels);
    SortedKeys(labels);
    forall p | p in ps ensures TidyPair(p) { }
    PairsRoundTrip(ps, crlf);
    LabelPairsCollect(labels);
  }

  // ---------------------------------------------------------- extra fields

  /** The pairs with both a title and a key, in order. */
  function Complete(ps: seq<Pair>): seq<Pair> {
    if ps == [] then []
    else if Last(ps).key == "" || Last(ps).value == "" then Complete(Init(ps))
    else Complete(Init(ps)) + [Last(ps)]
  }

  function FieldList(raw: string): seq<Pair> {
    Complete(Pairs(Split(raw, '\n')))
  }

  function FieldsText(fields: seq<Pair>): string {
    Join(PairLines(fields), "\n")
  }

  predicate TidyField(p: Pair) {
    TidyPair(p) && p.key != "" && p.value != ""
  }

  lemma {:induction false} CompleteFacts(ps: seq<Pair>)
    ensures forall p | p in Complete(ps) :: p in ps && p.key != "" && p.value != ""
  {
    if ps != [] { CompleteFacts(Init(ps)); }
  }

  lemma {:induction false} CompleteIdentity(ps: seq<Pair>)
    requires forall p | p in ps :: p.key != "" && p.value != ""
    ensures Complete(ps) == ps
  {
    if ps != [] {
      var before, p := Init(ps), Last(ps);
      assert p in ps && ps == before + [p];
      assert Complete(before) == before by {
        forall q | q in before ensures q in ps { }
        CompleteIdentity(before);
      }
      CompleteSnoc(before, p);
    }
  }

  lemma CompleteSnoc(ps: seq<Pair>, p: Pair)
    requires p.key != "" && p.value != ""
    ensures Complete(ps + [p]) == Complete(ps) + [p]
  {
    assert Init(ps + [p]) == ps;
  }

  lemma FieldListTidy(raw: string)
    ensures forall p | p in FieldList(raw) :: TidyField(p)
  {
    SplitParts(raw, '\n');
    PairsTidy(Split(raw, '\n'));
    CompleteFacts(Pairs(Split(raw, '\n')));
  }

  /** Fields keep their order and repeats. */
  lemma FieldsRoundTrip(fields: seq<Pair>, crlf: bool)
    requires forall p | p in fields :: TidyField(p)
    ensures FieldList(Resent(FieldsText(fields), crlf)) == fields
  {
    PairsRoundTrip(fields, crlf);
    CompleteIdentity(fields);
  }

  // ------------------------------------------------------------- the loops

  lemma PairsUpTo(lines: seq<string>, i: nat)
    requires i < |lines|
    ensures var p := ParseLine(lines[i]);
      Pairs(lines[..i + 1]) == if p.Some? then Pairs(lines[..i]) + [p.value] else Pairs(lines[..i])
  {
    assert Init(lines[..i + 1]) == lines[..i] && Last(lines[..i + 1]) == lines[i];
  }

  lemma CollectSnoc(ps: seq<Pair>, p: Pair)
    ensures Collect(ps + [p]) == Collect(ps)[p.key := p.value]
  {
    assert Init(ps + [p]) == ps;
  }

  method ParseLabels(raw: string) returns (out: map<string, string>)
    ensures out == Labels(raw)
  {
    out := map[];
    var lines := Split(raw, '\n');
    for i := 0 to |lines|
      invariant out == Collect(Pairs(lines[..i]))
    {
      PairsUpTo(lines, i);
      var line := Trim(lines[i]);
      if line == "" {
        continue;
      }
      IndexOfFacts(line, '=');
      var cut := IndexOf(line, '=');
      if cut == |line| {
        continue;
      }
      CollectSnoc(Pairs(lines[..i]), Pair(Trim(line[..cut]), Trim(line[cut + 1..])));
      out := out[Trim(line[..cut]) := Trim(line[cut + 1..])];
    }
    assert lines[..|lines|] == lines;
  }

  method ParseFieldList(raw: string) returns (out: seq<Pair>)
    ensures out == FieldList(raw)
  {
    out := [];
    var lines := Split(raw, '\n');
    for i := 0 to |lines|
      invariant out == Complete(Pairs(lines[..i]))
    {
      PairsUpTo(lines, i);
      var line := Trim(lines[i]);
      if line == "" {
        continue;
      }
      IndexOfFacts(line, '=');
      var cut := IndexOf(line, '=');
      if cut == |line| {
        continue;
      }
      var title, key := Trim(line[..cut]), Trim(line[cut + 1..]);
      ghost var before := Pairs(lines[..i]);
      assert Init(before + [Pair(title, key)]) == before;
      if title == "" || key == "" {
        continue;
      }
      out := out + [Pair(title, key)];
    }
    assert lines[..|lines|] == lines;
  }

  method FormatFieldList(fields: seq<Pair>) returns (text: string)
    ensures text == FieldsText(fields)
  {
    var lines := [];
    for i := 0 to |fields|
      invariant lines == PairLines(fields[..i])
    {
      assert Init(fields[..i + 1]) == fields[..i];
      lines := lines + [fields[i].key + "=" + fields[i].value];
    }
    assert fields[..|fields|] == fields;
    text := Join(lines, "\n");
  }

  method FormatLabels(labels: map<string, string>) returns (text: string)
    ensures text == LabelsText(labels)
  {
    var keys: seq<string> := [];
    var rest := labels.Keys;
    while rest != {}
      invariant rest <= labels.Keys
      invariant NoDup(keys) && (forall k :: k in keys <==> k in labels && k !in rest)
      decreases rest
    {
      var k :| k in rest;
      keys := keys + [k];
      rest := rest - {k};
    }
    SortedListing(labels.Keys, keys);
    keys := Sort(keys);
    SortedKeys(labels);
    var lines := [];
    ghost var ps := LabelPairs(labels);
    for i := 0 to |keys|
      invariant lines == PairLines(ps[..i])
    {
      assert Init(ps[..i + 1]) == ps[..i] && ps[i] == Pair(keys[i], labels[keys[i]]);
      lines := lines + [keys[i] + "=" + labels[keys[i]]];
    }
    assert ps[..|keys|] == ps;
    text := Join(lines, "\n");
  }
}
