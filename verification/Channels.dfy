/** A rule's comma-separated channel list, and the comma-separated group-by
    labels that are read the same way. */
module Channels {
  import opened Prelude
  import opened Texts

  /** Trim every part and drop the empty ones, keeping order and repeats. */
  function Cleaned(parts: seq<string>): seq<string> {
    if parts == [] then []
    else
      var rest, p := Cleaned(Init(parts)), Trim(Last(parts));
      if p == "" then rest else rest + [p]
  }

  /** Keep only the first occurrence of every element. */
  function Distinct(xs: seq<string>): seq<string> {
    if xs == [] then []
    else
      var rest := Distinct(Init(xs));
      if Last(xs) in rest then rest else rest + [Last(xs)]
  }

  function CsvList(raw: string): seq<string> {
    Cleaned(Split(raw, ','))
  }

  /** The Slack destinations a channel setting stands for. */
  function ChannelList(raw: string): seq<string> {
    Distinct(CsvList(raw))
  }

  method SplitChannels(raw: string) returns (channels: seq<string>)
    ensures channels == ChannelList(raw)
  {
    var parts := Split(raw, ',');
    var seen := {};
    channels := [];
    for i := 0 to |parts|
      invariant channels == Distinct(Cleaned(parts[..i]))
      invariant seen == set c | c in channels
    {
      assert Init(parts[..i + 1]) == parts[..i];
      var ch := Trim(parts[i]);
      if ch == "" || ch in seen {
        assert ch != "" ==> Init(Cleaned(parts[..i + 1])) == Cleaned(parts[..i]);
        continue;
      }
      assert Init(Cleaned(parts[..i + 1])) == Cleaned(parts[..i]);
      seen := seen + {ch};
      channels := channels + [ch];
    }
    assert parts[..|parts|] == parts;
  }

  method ParseCSV(raw: string) returns (out: seq<string>)
    ensures out == CsvList(raw)
  {
    var parts := Split(raw, ',');
    out := [];
    for i := 0 to |parts|
      invariant out == Cleaned(parts[..i])
    {
      assert Init(parts[..i + 1]) == parts[..i];
      var p := Trim(parts[i]);
      if p != "" {
        out := out + [p];
      }
    }
    assert parts[..|parts|] == parts;
  }

  method NormalizeChannelList(raw: string) returns (text: string)
    ensures text == Join(ChannelList(raw), ", ")
  {
    var parts := Split(raw, ',');
    var seen := {};
    var out := [];
    for i := 0 to |parts|
      invariant out == Distinct(Cleaned(parts[..i]))
      invariant seen == set c | c in out
    {
      assert Init(parts[..i + 1]) == parts[..i];
      var p := Trim(parts[i]);
      if p == "" || p in seen {
        assert p != "" ==> Init(Cleaned(parts[..i + 1])) == Cleaned(parts[..i]);
        continue;
      }
      assert Init(Cleaned(parts[..i + 1])) == Cleaned(parts[..i]);
      seen := seen + {p};
      out := out + [p];
    }
    assert parts[..|parts|] == parts;
    text := Join(out, ", ");
  }

  /** A list element that survives printing and reading back. */
  predicate Tidy(entry: string) {
    entry != "" && Trimmed(entry) && ',' !in entry
  }

  lemma {:induction false} CleanedFacts(parts: seq<string>)
    requires forall p | p in parts :: ',' !in p
    ensures forall e | e in Cleaned(parts) :: Tidy(e)
  {
    if parts != [] {
      CleanedFacts(Init(parts));
      TrimTrimmed(Last(parts));
    }
  }

  lemma {:induction false} DistinctMembers(xs: seq<string>)
    ensures NoDup(Distinct(xs)) && forall x :: x in Distinct(xs) <==> x in xs
  {
    if xs != [] {
      DistinctMembers(Init(xs));
      assert xs == Init(xs) + [Last(xs)];
    }
  }

  lemma {:induction false} DistinctSubseq(xs: seq<string>)
    ensures IsSubseq(Distinct(xs), xs)
  {
    if xs != [] {
      DistinctSubseq(Init(xs));
      var rest := Distinct(Init(xs));
      if Last(xs) in rest {
        assert xs == Init(xs) + [Last(xs)];
        SubseqExtend(rest, Init(xs), Last(xs));
      } else {
        assert Init(rest + [Last(xs)]) == rest;
      }
    }
  }

  lemma DistinctFacts(xs: seq<string>)
    ensures NoDup(Distinct(xs))
    ensures forall x :: x in Distinct(xs) <==> x in xs
    ensures IsSubseq(Distinct(xs), xs)
  {
    DistinctMembers(xs);
    DistinctSubseq(xs);
  }

  lemma {:induction false} SubseqExtend(xs: seq<string>, ys: seq<string>, y: string)
    requires IsSubseq(xs, ys)
    ensures IsSubseq(xs, ys + [y])
    decreases |ys|, 1
  {
    assert Init(ys + [y]) == ys;
    if xs != [] && Last(xs) == y {
      SubseqShrink(xs, ys);
    }
  }

  lemma {:induction false} SubseqShrink(xs: seq<string>, ys: seq<string>)
    requires xs != [] && IsSubseq(xs, ys)
    ensures IsSubseq(Init(xs), ys)
    decreases |ys|, 0
  {
    if Last(xs) == Last(ys) {
      SubseqExtend(Init(xs), Init(ys), Last(ys));
    } else {
      SubseqShrink(xs, Init(ys));
      SubseqExtend(Init(xs), Init(ys), Last(ys));
    }
    assert ys == Init(ys) + [Last(ys)];
  }

  /** The destinations of a setting: the trimmed non-empty parts, each once,
      in the order of their first mention. */
  lemma ChannelListFacts(raw: string)
    ensures NoDup(ChannelList(raw))
    ensures forall c | c in ChannelList(raw) :: Tidy(c)
    ensures forall c :: c in ChannelList(raw) <==> c in CsvList(raw)
    ensures IsSubseq(ChannelList(raw), CsvList(raw))
  {
    SplitParts(raw, ',');
    CleanedFacts(Split(raw, ','));
    DistinctFacts(CsvList(raw));
  }

  lemma NoDupInit(xs: seq<string>)
    requires xs != [] && NoDup(xs)
    ensures NoDup(Init(xs)) && Last(xs) !in Init(xs)
  {
    forall i | 0 <= i < |xs| - 1 ensures Init(xs)[i] != Last(xs) {
      assert Init(xs)[i] == xs[i];
    }
  }

  lemma {:induction false} DistinctIdentity(xs: seq<string>)
    requires NoDup(xs)
    ensures Distinct(xs) == xs
  {
    if xs != [] {
      var prefix, x := Init(xs), Last(xs);
      assert xs == prefix + [x];
      assert NoDup(prefix) && x !in prefix by { NoDupInit(xs); }
      assert Distinct(prefix) == prefix by { DistinctIdentity(prefix); }
      DistinctSnoc(prefix, x);
    }
  }

  lemma DistinctSnoc(xs: seq<string>, x: string)
    requires x !in Distinct(xs)
    ensures Distinct(xs + [x]) == Distinct(xs) + [x]
  {
    assert Init(xs + [x]) == xs;
  }

  lemma {:induction false} CleanedPadded(xs: seq<string>)
    requires forall x | x in xs :: Tidy(x)
    ensures Cleaned(Padded(" ", xs)) == xs
  {
    if xs != [] {
      CleanedPadded(Init(xs));
      var x := Last(xs);
      assert Tidy(x);
      assert Init(Padded(" ", xs)) == Padded(" ", Init(xs));
      if |xs| == 1 {
        TrimIdentity(x);
      } else {
        TrimPadded(" ", x, "");
        assert " " + x + "" == " " + x;
      }
      assert xs == Init(xs) + [x];
    }
  }

  /** Printing a tidy list with ", " and reading it back gives it back. */
  lemma CsvRoundTrip(xs: seq<string>)
    requires forall x | x in xs :: Tidy(x)
    ensures CsvList(Join(xs, ", ")) == xs
  {
    if xs == [] {
      assert Split("", ',') == [""];
      assert Init([""]) == [];
    } else {
      assert [','] + " " == ", ";
      SplitJoinPadded(xs, ',', " ");
      CleanedPadded(xs);
    }
  }

  lemma CsvListTidy(raw: string)
    ensures forall e | e in CsvList(raw) :: Tidy(e)
  {
    SplitParts(raw, ',');
    CleanedFacts(Split(raw, ','));
  }

  /** What the form stores stands for exactly the channels that were typed. */
  lemma NormalizedMeansTheSame(raw: string)
    ensures ChannelList(Join(ChannelList(raw), ", ")) == ChannelList(raw)
  {
    ChannelListFacts(raw);
    CsvRoundTrip(ChannelList(raw));
    DistinctIdentity(ChannelList(raw));
  }

  lemma GroupByRoundTrip(raw: string)
    ensures CsvList(Join(CsvList(raw), ", ")) == CsvList(raw)
  {
    CsvListTidy(raw);
    CsvRoundTrip(CsvList(raw));
  }
}
