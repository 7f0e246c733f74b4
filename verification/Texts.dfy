/** The string helpers of the Go standard library that the rule forms, the
    group key and the bucket key are built from. */
module Texts {
  import opened Prelude

  // ------------------------------------------------------------ ordering

  /** Byte-wise `<=` of Go strings. */
  predicate Leq(a: string, b: string) {
    a == [] || (b != [] && (a[0] < b[0] || (a[0] == b[0] && Leq(a[1..], b[1..]))))
  }

  lemma {:induction false} LeqTotal(a: string, b: string)
    ensures Leq(a, b) || Leq(b, a)
  {
    if a != [] && b != [] && a[0] == b[0] { LeqTotal(a[1..], b[1..]); }
  }

  lemma {:induction false} LeqAntisymmetric(a: string, b: string)
    requires Leq(a, b) && Leq(b, a)
    ensures a == b
  {
    if a != [] && b != [] {
      LeqAntisymmetric(a[1..], b[1..]);
      assert a == [a[0]] + a[1..] && b == [b[0]] + b[1..];
    }
  }

  lemma {:induction false} LeqTransitive(a: string, b: string, c: string)
    requires Leq(a, b) && Leq(b, c)
    ensures Leq(a, c)
  {
    if a != [] && a[0] == b[0] && b[0] == c[0] { LeqTransitive(a[1..], b[1..], c[1..]); }
  }

  predicate Sorted(s: seq<string>) {
    forall i, j | 0 <= i < j < |s| :: Leq(s[i], s[j])
  }

  function Insert(x: string, s: seq<string>): seq<string> {
    if s == [] then [x] else if Leq(x, s[0]) then [x] + s else [s[0]] + Insert(x, s[1..])
  }

  /** sort.Strings. */
  function Sort(s: seq<string>): seq<string> {
    if s == [] then [] else Insert(s[0], Sort(s[1..]))
  }

  lemma {:induction false} InsertMultiset(x: string, s: seq<string>)
    ensures multiset(Insert(x, s)) == multiset{x} + multiset(s)
  {
    if s != [] && !Leq(x, s[0]) {
      InsertMultiset(x, s[1..]);
      assert s == [s[0]] + s[1..];
    }
  }

  lemma {:induction false} InsertSorted(x: string, s: seq<string>)
    requires Sorted(s)
    ensures Sorted(Insert(x, s))
  {
    if s == [] {
    } else if Leq(x, s[0]) {
      forall j | 0 <= j < |s| ensures Leq(x, s[j]) {
        if j > 0 { LeqTransitive(x, s[0], s[j]); }
      }
    } else {
      LeqTotal(x, s[0]);
      InsertSorted(x, s[1..]);
      InsertMultiset(x, s[1..]);
      var r := Insert(x, s[1..]);
      forall j | 0 <= j < |r| ensures Leq(s[0], r[j]) {
        assert r[j] in multiset(r);
      }
    }
  }

  lemma {:induction false} SortCorrect(s: seq<string>)
    ensures Sorted(Sort(s)) && multiset(Sort(s)) == multiset(s)
  {
    if s != [] {
      SortCorrect(s[1..]);
      InsertSorted(s[0], Sort(s[1..]));
      InsertMultiset(s[0], Sort(s[1..]));
      assert s == [s[0]] + s[1..];
    }
  }

  lemma SortedHead(s: seq<string>, x: string)
    requires Sorted(s) && x in s
    ensures Leq(s[0], x)
  {
    var i :| 0 <= i < |s| && s[i] == x;
    if i == 0 { LeqTotal(x, x); }
  }

  lemma TailMultiset(s: seq<string>)
    requires s != []
    ensures multiset(s[1..]) == multiset(s) - multiset{s[0]}
  {
    assert s == [s[0]] + s[1..];
  }

  /** A sorted sequence is determined by its contents. */
  lemma {:induction false} SortedUnique(s: seq<string>, t: seq<string>)
    requires Sorted(s) && Sorted(t) && multiset(s) == multiset(t)
    ensures s == t
  {
    assert |s| == |multiset(s)| == |multiset(t)| == |t|;
    if s != [] {
      assert s[0] == t[0] by {
        assert s[0] in multiset(t) && t[0] in multiset(s);
        SortedHead(s, t[0]);
        SortedHead(t, s[0]);
        LeqAntisymmetric(s[0], t[0]);
      }
      TailMultiset(s);
      TailMultiset(t);
      SortedUnique(s[1..], t[1..]);
      assert s == [s[0]] + s[1..] && t == [t[0]] + t[1..];
    }
  }

  /** Sorting forgets the order it was given. */
  lemma SortPermutation(s: seq<string>, t: seq<string>)
    ensures multiset(s) == multiset(t) <==> Sort(s) == Sort(t)
  {
    SortCorrect(s);
    SortCorrect(t);
    if multiset(s) == multiset(t) { SortedUnique(Sort(s), Sort(t)); }
  }

  /** A set of strings as the list sort.Strings makes of it. */
  ghost function SortedList(s: set<string>): seq<string> {
    if s == {} then []
    else
      LeastExists(s);
      var x :| x in s && forall y | y in s :: Leq(x, y);
      [x] + SortedList(s - {x})
  }

  lemma {:induction false} LeastExists(s: set<string>)
    requires s != {}
    ensures exists x :: x in s && forall y | y in s :: Leq(x, y)
  {
    var k :| k in s;
    if s == {k} {
      LeqTotal(k, k);
    } else {
      LeastExists(s - {k});
      var x :| x in s - {k} && forall y | y in s - {k} :: Leq(x, y);
      LeqTotal(x, k);
      LeqTotal(k, k);
      var best := if Leq(x, k) then x else k;
      forall y | y in s ensures Leq(best, y) {
        if best == k && y != k { LeqTransitive(k, x, y); }
        assert y == k || y in s - {k};
      }
    }
  }

  lemma {:induction false} SortedListFacts(s: set<string>)
    ensures Sorted(SortedList(s)) && multiset(SortedList(s)) == multiset(s)
  {
    if s != {} {
      var x := SortedList(s)[0];
      SortedListFacts(s - {x});
      var rest := SortedList(s - {x});
      assert SortedList(s) == [x] + rest;
      forall j | 0 <= j < |rest| ensures Leq(x, rest[j]) {
        assert rest[j] in multiset(rest);
      }
    }
  }

  lemma ListOfSet(s: set<string>, xs: seq<string>)
    requires multiset(xs) == multiset(s)
    ensures NoDup(xs) && forall x :: x in xs <==> x in s
  {
    forall x ensures x in xs <==> x in s { assert x in xs <==> x in multiset(xs); }
    forall i, j | 0 <= i < j < |xs| ensures xs[i] != xs[j] {
      if xs[i] == xs[j] { TwiceCounts(xs, i, j); }
    }
  }

  lemma TwiceCounts(xs: seq<string>, i: nat, j: nat)
    requires i < j < |xs| && xs[i] == xs[j]
    ensures multiset(xs)[xs[i]] >= 2
  {
    var front, back := xs[..j], xs[j..];
    assert xs == front + back && front[i] == xs[i] && back[0] == xs[j];
    assert xs[i] in multiset(front) && xs[i] in multiset(back);
    assert multiset(xs) == multiset(front) + multiset(back);
  }

  lemma SortedListing(s: set<string>, keys: seq<string>)
    requires NoDup(keys) && forall k :: k in keys <==> k in s
    ensures Sort(keys) == SortedList(s)
  {
    SortCorrect(keys);
    SortedListFacts(s);
    ListingMultiset(s, keys);
    SortedUnique(Sort(keys), SortedList(s));
  }

  lemma {:induction false} ListingMultiset(s: set<string>, keys: seq<string>)
    requires NoDup(keys) && forall k :: k in keys <==> k in s
    ensures multiset(keys) == multiset(s)
    decreases |keys|
  {
    if keys != [] {
      var x, rest := Last(keys), Init(keys);
      assert keys == rest + [x];
      forall i | 0 <= i < |rest| ensures rest[i] != x { assert keys[i] == rest[i]; }
      ListingMultiset(s - {x}, rest);
    } else {
      assert s == {};
    }
  }

  // ------------------------------------------------------- split and join

  /** strings.Split with a one-character separator. */
  function Split(s: string, sep: char): (parts: seq<string>)
    ensures parts != []
  {
    if s == [] then [""]
    else if s[0] == sep then [""] + Split(s[1..], sep)
    else var rest := Split(s[1..], sep); [[s[0]] + rest[0]] + rest[1..]
  }

  /** strings.Join. */
  function Join(parts: seq<string>, sep: string): string {
    if parts == [] then ""
    else if |parts| == 1 then parts[0]
    else parts[0] + sep + Join(parts[1..], sep)
  }

  /** Two texts that agree after a separator was added agree before and after
      its first occurrence. */
  lemma FirstCut(a: string, x: string, b: string, y: string, sep: char)
    requires sep !in a && sep !in b && a + [sep] + x == b + [sep] + y
    ensures a == b && x == y
  {
    var l, r := a + [sep] + x, b + [sep] + y;
    assert l[|a|] == sep && r[|b|] == sep;
    assert |a| == |b|;
    assert a == l[..|a|] && b == r[..|b|];
    assert x == l[|a| + 1..] && y == r[|b| + 1..];
  }

  lemma {:induction false} SplitParts(s: string, sep: char)
    ensures forall p | p in Split(s, sep) :: sep !in p && forall c | c in p :: c in s
  {
    if s != [] { SplitParts(s[1..], sep); }
  }

  lemma {:induction false} SplitPlain(s: string, sep: char)
    requires sep !in s
    ensures Split(s, sep) == [s]
  {
    if s != [] {
      SplitPlain(s[1..], sep);
      assert s == [s[0]] + s[1..];
    }
  }

  lemma {:induction false} SplitFirst(p: string, rest: string, sep: char)
    requires sep !in p
    ensures Split(p + [sep] + rest, sep) == [p] + Split(rest, sep)
  {
    if p == [] {
      assert p + [sep] + rest == [sep] + rest;
      assert ([sep] + rest)[1..] == rest;
    } else {
      SplitFirst(p[1..], rest, sep);
      var s := p + [sep] + rest;
      assert s[1..] == p[1..] + [sep] + rest;
      assert [p[0]] + p[1..] == p;
    }
  }

  /** The parts a split of a joined text gives back: the padding that follows
      each separator stays in front of the part after it. */
  function Padded(pad: string, parts: seq<string>): seq<string> {
    seq(|parts|, i requires 0 <= i < |parts| => if i == 0 then parts[0] else pad + parts[i])
  }

  lemma JoinPadHead(parts: seq<string>, sep: string, pad: string)
    requires parts != []
    ensures pad + Join(parts, sep) == Join([pad + parts[0]] + parts[1..], sep)
  {
    var padded := [pad + parts[0]] + parts[1..];
    assert padded[1..] == parts[1..];
    if |parts| > 1 {
      var rest := Join(parts[1..], sep);
      assert pad + (parts[0] + sep + rest) == (pad + parts[0]) + sep + rest;
    }
  }

  lemma {:induction false} SplitPaddedJoin(first: string, parts: seq<string>, sep: char, pad: string)
    requires sep !in first && sep !in pad && forall p | p in parts :: sep !in p
    ensures Split(Join([first] + parts, [sep] + pad), sep) == Padded(pad, [first] + parts)
    decreases |parts|
  {
    if parts == [] {
      SplitPlain(first, sep);
      assert Padded(pad, [first] + parts) == [first];
    } else {
      var joiner := [sep] + pad;
      var rest := Join(parts, joiner);
      assert Join([first] + parts, joiner) == first + joiner + rest by {
        assert ([first] + parts)[1..] == parts;
      }
      assert first + joiner + rest == first + [sep] + (pad + rest);
      SplitFirst(first, pad + rest, sep);
      JoinPadHead(parts, joiner, pad);
      SplitPaddedJoin(pad + parts[0], parts[1..], sep, pad);
      assert Padded(pad, [first] + parts) == [first] + Padded(pad, [pad + parts[0]] + parts[1..]);
    }
  }

  lemma SplitJoinPadded(parts: seq<string>, sep: char, pad: string)
    requires parts != [] && sep !in pad && forall p | p in parts :: sep !in p
    ensures Split(Join(parts, [sep] + pad), sep) == Padded(pad, parts)
  {
    assert parts == [parts[0]] + parts[1..];
    SplitPaddedJoin(parts[0], parts[1..], sep, pad);
  }

  lemma SplitJoin(parts: seq<string>, sep: char)
    requires parts != [] && forall p | p in parts :: sep !in p
    ensures Split(Join(parts, [sep]), sep) == parts
  {
    SplitJoinPadded(parts, sep, "");
    assert [sep] + "" == [sep];
    assert forall i | 0 <= i < |parts| :: Padded("", parts)[i] == parts[i];
    assert Padded("", parts) == parts;
  }

  // ----------------------------------------------------------- trimming

  /** unicode.IsSpace. */
  predicate IsSpace(c: char) {
    c == ' ' || '\t' <= c <= '\r' || c == '\U{85}' || c == '\U{A0}' || c == '\U{1680}'
    || '\U{2000}' <= c <= '\U{200A}' || c == '\U{2028}' || c == '\U{2029}' || c == '\U{202F}'
    || c == '\U{205F}' || c == '\U{3000}'
  }

  predicate Blank(s: string) {
    forall c | c in s :: IsSpace(c)
  }

  function TrimLeft(s: string): string {
    if s != [] && IsSpace(s[0]) then TrimLeft(s[1..]) else s
  }

  function TrimRight(s: string): string {
    if s != [] && IsSpace(Last(s)) then TrimRight(Init(s)) else s
  }

  /** strings.TrimSpace. */
  function Trim(s: string): string {
    TrimRight(TrimLeft(s))
  }

  /** No space at either end: what trimming produces and leaves alone. */
  predicate Trimmed(s: string) {
    s == [] || (!IsSpace(s[0]) && !IsSpace(Last(s)))
  }

  lemma {:induction false} TrimLeftFacts(s: string)
    ensures var t := TrimLeft(s); (t == [] || !IsSpace(t[0])) && forall c | c in t :: c in s
  {
    if s != [] && IsSpace(s[0]) { TrimLeftFacts(s[1..]); }
  }

  lemma {:induction false} TrimRightFacts(s: string)
    ensures var t := TrimRight(s);
      t <= s && (t == [] || !IsSpace(Last(t))) && forall c | c in t :: c in s
  {
    if s != [] && IsSpace(Last(s)) { TrimRightFacts(Init(s)); }
  }

  lemma TrimTrimmed(s: string)
    ensures Trimmed(Trim(s)) && forall c | c in Trim(s) :: c in s
  {
    TrimLeftFacts(s);
    TrimRightFacts(TrimLeft(s));
  }

  lemma TrimIdentity(s: string)
    requires Trimmed(s)
    ensures Trim(s) == s
  { }

  lemma {:induction false} TrimLeftPad(pad: string, s: string)
    requires Blank(pad)
    ensures TrimLeft(pad + s) == TrimLeft(s)
  {
    if pad == [] {
      assert pad + s == s;
    } else {
      assert (pad + s)[1..] == pad[1..] + s;
      TrimLeftPad(pad[1..], s);
    }
  }

  lemma {:induction false} TrimLeftFront(left: string, rest: string)
    requires rest != [] && !IsSpace(rest[0])
    ensures TrimLeft(left + rest) == TrimLeft(left) + rest
  {
    if left == [] {
      assert left + rest == rest;
    } else if IsSpace(left[0]) {
      assert (left + rest)[1..] == left[1..] + rest;
      TrimLeftFront(left[1..], rest);
    }
  }

  lemma {:induction false} TrimRightBack(front: string, right: string)
    requires front != [] && !IsSpace(Last(front))
    ensures TrimRight(front + right) == front + TrimRight(right)
    decreases |right|
  {
    if right == [] {
      assert front + right == front;
    } else {
      assert Last(front + right) == Last(right) && Init(front + right) == front + Init(right);
      if IsSpace(Last(right)) { TrimRightBack(front, Init(right)); }
    }
  }

  lemma {:induction false} BlankTrims(s: string)
    requires Blank(s)
    ensures TrimRight(s) == ""
  {
    if s != [] { BlankTrims(Init(s)); }
  }

  /** Padding a trimmed text with spaces on either side is undone by Trim. */
  lemma TrimPadded(left: string, s: string, right: string)
    requires Blank(left) && Blank(right) && Trimmed(s)
    ensures Trim(left + s + right) == s
  {
    assert left + s + right == left + (s + right);
    TrimLeftPad(left, s + right);
    if s == [] {
      assert s + right == right + [];
      TrimLeftPad(right, []);
    } else {
      assert TrimLeft(s + right) == s + right;
      TrimRightBack(s, right);
      BlankTrims(right);
      assert s + "" == s;
    }
  }
}
