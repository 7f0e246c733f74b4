/** What the texts of the rule form mean, line by line and entry by entry. */
module Reading {
  import opened Prelude
  import opened Texts
  import opened Channels
  import opened Forms

  // ------------------------------------------------- splitting and trimming

  /** Splitting loses nothing. */
  lemma {:induction false} JoinSplit(s: string, sep: char)
    ensures Join(Split(s, sep), [sep]) == s
  {
    if s != [] {
      var rest := Split(s[1..], sep);
      JoinSplit(s[1..], sep);
      if s[0] == sep {
        assert ([""] + rest)[1..] == rest;
      } else {
        assert ([[s[0]] + rest[0]] + rest[1..])[1..] == rest[1..];
        assert s == [s[0]] + s[1..];
      }
    }
  }

  /** The last entry ends at the last separator. */
  lemma {:induction false} SplitSnoc(front: string, p: string, sep: char)
    requires sep !in p
    ensures Split(front + [sep] + p, sep) == Split(front, sep) + [p]
  {
    var s := front + [sep] + p;
    if front == [] {
      SplitPlain(p, sep);
      assert s[1..] == p;
    } else {
      assert s[1..] == front[1..] + [sep] + p;
      SplitSnoc(front[1..], p, sep);
    }
  }

  lemma {:induction false} TrimLeftOff(s: string) returns (pad: string)
    ensures Blank(pad) && s == pad + TrimLeft(s)
  {
    if s != [] && IsSpace(s[0]) {
      pad := TrimLeftOff(s[1..]);
      pad := [s[0]] + pad;
    } else {
      pad := [];
    }
  }

  lemma {:induction false} TrimRightOff(s: string) returns (pad: string)
    ensures Blank(pad) && s == TrimRight(s) + pad
  {
    if s != [] && IsSpace(Last(s)) {
      pad := TrimRightOff(Init(s));
      pad := pad + [Last(s)];
    } else {
      pad := [];
    }
  }

  /** Trimming takes off spaces, at both ends, all of them and nothing else. */
  lemma TrimIs(s: string) returns (left: string, right: string)
    ensures Blank(left) && Blank(right) && s == left + Trim(s) + right && Trimmed(Trim(s))
  {
    left := TrimLeftOff(s);
    right := TrimRightOff(TrimLeft(s));
    TrimTrimmed(s);
  }

  lemma TrimOfLeft(s: string)
    ensures Trim(TrimLeft(s)) == Trim(s)
  {
    TrimLeftFacts(s);
  }

  lemma TrimOfRight(s: string)
    ensures Trim(TrimRight(s)) == Trim(s)
  {
    var left, right := TrimIs(s);
    var pad := TrimRightOff(s);
    if Trim(s) == "" {
      forall c | c in TrimRight(s) ensures IsSpace(c) { assert c in s; }
      assert TrimRight(s) + "" + "" == TrimRight(s);
      TrimPadded(TrimRight(s), "", "");
    } else {
      assert s == (left + Trim(s)) + right;
      TrimRightBack(left + Trim(s), right);
      BlankTrims(right);
      assert left + Trim(s) + "" == TrimRight(s);
      TrimPadded(left, Trim(s), "");
    }
  }

  // -------------------------------------------------------------- one line

  lemma TrimLine(left: string, right: string)
    ensures Trim(left + "=" + right) == TrimLeft(left) + ['='] + TrimRight(right)
  {
    var l := TrimLeft(left);
    assert left + "=" + right == left + ("=" + right);
    TrimLeftFront(left, "=" + right);
    assert l + ("=" + right) == (l + ['=']) + right;
    TrimRightBack(l + ['='], right);
  }

  /** A line means what stands before its first '=' and what stands after it,
      both without the spaces around them; without a '=' it means nothing. */
  lemma LineMeans(left: string, right: string)
    requires '=' !in left
    ensures ParseLine(left + "=" + right) == Some(Pair(Trim(left), Trim(right)))
  {
    var l, r := TrimLeft(left), TrimRight(right);
    TrimLine(left, right);
    TrimLeftFacts(left);
    IndexOfAfter(l, r, '=');
    CutAt(l, r);
    TrimOfLeft(left);
    TrimOfRight(right);
  }

  lemma CutAt(l: string, r: string)
    ensures (l + ['='] + r)[..|l|] == l && (l + ['='] + r)[|l| + 1..] == r
  { }

  lemma LineWithout(line: string)
    requires '=' !in line
    ensures ParseLine(line) == None
  {
    TrimTrimmed(line);
    IndexOfFacts(Trim(line), '=');
  }

  lemma PairsSnoc(lines: seq<string>, line: string)
    ensures Pairs(lines + [line]) == if ParseLine(line).Some? then Pairs(lines) + [ParseLine(line).value] else Pairs(lines)
  {
    assert Init(lines + [line]) == lines;
  }

  // ------------------------------------------------------------- the texts

  /** What a line adds to the pairs read. */
  function Said(line: string): seq<Pair> {
    if ParseLine(line).Some? then [ParseLine(line).value] else []
  }

  lemma OneMoreLine(front: string, line: string)
    requires '\n' !in line
    ensures Pairs(Split(front + "\n" + line, '\n')) == Pairs(Split(front, '\n')) + Said(line)
    ensures Pairs(Split(line, '\n')) == Said(line)
  {
    SplitSnoc(front, line, '\n');
    PairsSnoc(Split(front, '\n'), line);
    SplitPlain(line, '\n');
    assert [] + [line] == [line];
    PairsSnoc([], line);
  }

  lemma SaidPair(left: string, right: string)
    requires '=' !in left
    ensures Said(left + "=" + right) == [Pair(Trim(left), Trim(right))]
  {
    LineMeans(left, right);
  }

  /** One more line of labels: its value replaces an earlier one of the key. */
  lemma LabelsLine(front: string, left: string, right: string)
    requires '=' !in left && '\n' !in left && '\n' !in right
    ensures Labels(front + "\n" + (left + "=" + right)) == Labels(front)[Trim(left) := Trim(right)]
    ensures Labels(left + "=" + right) == map[Trim(left) := Trim(right)]
  {
    SaidPair(left, right);
    OneMoreLine(front, left + "=" + right);
    CollectSnoc(Pairs(Split(front, '\n')), Pair(Trim(left), Trim(right)));
    CollectOne(Pair(Trim(left), Trim(right)));
  }

  lemma CollectOne(p: Pair)
    ensures Collect([p]) == map[p.key := p.value]
  {
    assert [] + [p] == [p];
    CollectSnoc([], p);
  }

  /** A line without a '=' says nothing. */
  lemma LabelsOtherLine(front: string, line: string)
    requires '=' !in line && '\n' !in line
    ensures Labels(front + "\n" + line) == Labels(front) && Labels(line) == map[]
  {
    LineWithout(line);
    OneMoreLine(front, line);
    assert Pairs(Split(front, '\n')) + [] == Pairs(Split(front, '\n'));
  }

  /** One more line of fields is one more field, if both its parts say
      something. */
  lemma FieldsLine(front: string, left: string, right: string)
    requires '=' !in left && '\n' !in left && '\n' !in right
    ensures FieldList(front + "\n" + (left + "=" + right)) == FieldList(front) + FieldSaid(left, right)
    ensures FieldList(left + "=" + right) == FieldSaid(left, right)
  {
    SaidPair(left, right);
    OneMoreLine(front, left + "=" + right);
    CompleteLast(Pairs(Split(front, '\n')), Pair(Trim(left), Trim(right)));
    assert [] + [Pair(Trim(left), Trim(right))] == [Pair(Trim(left), Trim(right))];
    CompleteLast([], Pair(Trim(left), Trim(right)));
  }

  function FieldSaid(left: string, right: string): seq<Pair> {
    if Trim(left) != "" && Trim(right) != "" then [Pair(Trim(left), Trim(right))] else []
  }

  lemma CompleteLast(ps: seq<Pair>, p: Pair)
    ensures Complete(ps + [p]) == Complete(ps) + (if p.key != "" && p.value != "" then [p] else [])
  {
    assert Init(ps + [p]) == ps;
  }

  lemma FieldsOtherLine(front: string, line: string)
    requires '=' !in line && '\n' !in line
    ensures FieldList(front + "\n" + line) == FieldList(front) && FieldList(line) == []
  {
    LineWithout(line);
    OneMoreLine(front, line);
    assert Pairs(Split(front, '\n')) + [] == Pairs(Split(front, '\n'));
  }

  lemma CleanedLast(parts: seq<string>, p: string)
    ensures Cleaned(parts + [p]) == if Trim(p) == "" then Cleaned(parts) else Cleaned(parts) + [Trim(p)]
  {
    assert Init(parts + [p]) == parts;
  }

  lemma DistinctLast(xs: seq<string>, x: string)
    ensures Distinct(xs + [x]) == if x in Distinct(xs) then Distinct(xs) else Distinct(xs) + [x]
  {
    assert Init(xs + [x]) == xs;
  }

  /** One more entry of a list counts, trimmed, unless it is blank. */
  lemma CsvEntry(front: string, p: string)
    requires ',' !in p
    ensures CsvList(front + "," + p) == CsvList(front) + (if Trim(p) == "" then [] else [Trim(p)])
    ensures CsvList(p) == if Trim(p) == "" then [] else [Trim(p)]
  {
    SplitSnoc(front, p, ',');
    CleanedLast(Split(front, ','), p);
    SplitPlain(p, ',');
    assert [] + [p] == [p];
    CleanedLast([], p);
  }

  /** One more channel counts unless it is blank or there already. */
  lemma ChannelEntry(front: string, p: string)
    requires ',' !in p
    ensures var known := ChannelList(front);
      ChannelList(front + "," + p) == if Trim(p) == "" || Trim(p) in known then known else known + [Trim(p)]
    ensures ChannelList(p) == if Trim(p) == "" then [] else [Trim(p)]
  {
    CsvEntry(front, p);
    assert CsvList(front) + [] == CsvList(front) && [] + [Trim(p)] == [Trim(p)];
    DistinctLast(CsvList(front), Trim(p));
    DistinctLast([], Trim(p));
  }

  // --------------------------------------------------------- printed texts

  /** Labels are printed one per line, sorted by key. */
  lemma LabelsPrinted(labels: map<string, string>) returns (keys: seq<string>, lines: seq<string>)
    ensures Sorted(keys) && NoDup(keys) && (forall k :: k in keys <==> k in labels)
    ensures |lines| == |keys| && forall i | 0 <= i < |keys| :: keys[i] in labels && lines[i] == keys[i] + "=" + labels[keys[i]]
    ensures LabelsText(labels) == Join(lines, "\n")
  {
    keys := SortedList(labels.Keys);
    SortedListFacts(labels.Keys);
    ListOfSet(labels.Keys, keys);
    lines := PairLines(LabelPairs(labels));
    PairLinesFacts(LabelPairs(labels));
    forall i | 0 <= i < |keys| ensures keys[i] in labels { assert keys[i] in keys; }
  }

  /** Fields are printed one per line, in order. */
  lemma FieldsPrinted(fields: seq<Pair>) returns (lines: seq<string>)
    ensures |lines| == |fields| && forall i | 0 <= i < |fields| :: lines[i] == fields[i].key + "=" + fields[i].value
    ensures FieldsText(fields) == Join(lines, "\n")
  {
    lines := PairLines(fields);
    PairLinesFacts(fields);
  }

  // ---------------------------------------------------- order and spaces

  /** Sorting is by the first character in which two texts differ; a text comes
      before its continuations. */
  lemma {:induction false} OrderIs(a: string, b: string)
    ensures Leq(a, b) <==> a <= b || exists i :: FirstDifference(a, b, i) && a[i] < b[i]
    decreases |a|
  {
    if a != [] && b != [] && a[0] == b[0] {
      OrderIs(a[1..], b[1..]);
      if exists i :: FirstDifference(a[1..], b[1..], i) && a[1..][i] < b[1..][i] {
        var i :| FirstDifference(a[1..], b[1..], i) && a[1..][i] < b[1..][i];
        assert FirstDifference(a, b, i + 1) by { assert forall j | 0 < j <= i :: a[j] == a[1..][j - 1] && b[j] == b[1..][j - 1]; }
      }
      if exists i :: FirstDifference(a, b, i) && a[i] < b[i] {
        var i :| FirstDifference(a, b, i) && a[i] < b[i];
        assert FirstDifference(a[1..], b[1..], i - 1);
      }
    } else if a != [] && b != [] {
      assert FirstDifference(a, b, 0);
    }
  }

  predicate FirstDifference(a: string, b: string, i: int) {
    0 <= i < |a| && i < |b| && a[i] != b[i] && forall j | 0 <= j < i :: a[j] == b[j]
  }

  /** The spaces among the ASCII characters; the separators are none. */
  lemma AsciiSpaces(c: char)
    requires c < '\U{80}'
    ensures IsSpace(c) <==> c in [' ', '\t', '\n', '\U{0B}', '\U{0C}', '\r']
  { }
}
