/** Small shared vocabulary: optional values and duplicate-free sequences. */
module Prelude {

  datatype Option<+T> = None | Some(value: T)

  function Init<T>(s: seq<T>): seq<T>
    requires s != []
  {
    s[..|s| - 1]
  }

  function Last<T>(s: seq<T>): T
    requires s != []
  {
    s[|s| - 1]
  }

  lemma CancelOne<T>(x: T, a: multiset<T>, b: multiset<T>)
    requires multiset{x} + a == multiset{x} + b
    ensures a == b
  {
    assert (multiset{x} + a) - multiset{x} == a;
    assert (multiset{x} + b) - multiset{x} == b;
  }

  lemma PrefixSnoc<T>(s: seq<T>, i: nat)
    requires i < |s|
    ensures s[..i + 1] == s[..i] + [s[i]]
  { }

  predicate NoDup<T(==)>(s: seq<T>) {
    forall i, j | 0 <= i < j < |s| :: s[i] != s[j]
  }

  /** xs can be obtained from ys by deleting elements, keeping the order. */
  predicate IsSubseq<T(==)>(xs: seq<T>, ys: seq<T>) {
    xs == [] ||
    (ys != [] &&
     if Last(xs) == Last(ys) then IsSubseq(Init(xs), Init(ys)) else IsSubseq(xs, Init(ys)))
  }

  lemma {:induction false} SubseqMembers<T>(xs: seq<T>, ys: seq<T>)
    requires IsSubseq(xs, ys)
    ensures forall x | x in xs :: x in ys
    decreases |ys|
  {
    if xs != [] {
      if Last(xs) == Last(ys) {
        SubseqMembers(Init(xs), Init(ys));
        assert xs == Init(xs) + [Last(xs)];
      } else {
        SubseqMembers(xs, Init(ys));
      }
    }
  }

  lemma {:induction false} SubseqNoDup<T>(xs: seq<T>, ys: seq<T>)
    requires IsSubseq(xs, ys) && NoDup(ys)
    ensures NoDup(xs)
    decreases |ys|
  {
    if xs != [] {
      if Last(xs) == Last(ys) {
        SubseqNoDup(Init(xs), Init(ys));
        SubseqMembers(Init(xs), Init(ys));
        forall i | 0 <= i < |xs| - 1 ensures xs[i] != Last(xs) {
          assert xs[i] == Init(xs)[i] && Init(xs)[i] in Init(ys);
        }
        forall i, j | 0 <= i < j < |xs| ensures xs[i] != xs[j] {
          if j < |xs| - 1 { assert Init(xs)[i] != Init(xs)[j]; }
        }
      } else {
        SubseqNoDup(xs, Init(ys));
      }
    }
  }

  lemma {:induction false} SubsetSize<T>(a: set<T>, b: set<T>)
    requires a <= b
    ensures |a| <= |b|
  {
    if a != {} {
      var x :| x in a;
      SubsetSize(a - {x}, b - {x});
    }
  }
}
