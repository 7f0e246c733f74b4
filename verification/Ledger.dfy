/** The bookkeeping of a group agrees with the calls made to Slack, and a
    bucket's delivery keeps it that way. */
module Ledger {
  import opened Prelude
  import opened Members
  import opened Batching
  import opened Slack
  import opened Flush

  function Chans(ts: seq<NotifiedTarget>): seq<string> {
    seq(|ts|, i requires 0 <= i < |ts| => ts[i].channel)
  }

  /** The targets follow the rule's channel list, and an alert that counts as
      shown has one in every channel. */
  predicate Covered(m: GroupMember, channels: seq<string>) {
    && IsSubseq(Chans(m.notifiedTargets), channels)
    && (m.notifiedStatus != "" ==> Chans(m.notifiedTargets) == channels)
  }

  /** The call posted the message t, for (among others) the alert fp. */
  predicate PostFor(s: Send, fp: string, t: NotifiedTarget) {
    PostedOk(s) && fp in Fps(s.members) && MadeTarget(s.channel, s.outcome) == t
  }

  /** Every target an alert carries was posted for it. */
  ghost predicate Backed(log: seq<Send>, since: nat, fp: string, t: NotifiedTarget) {
    exists i :: since <= i < |log| && PostFor(log[i], fp, t)
  }

  ghost predicate AllBacked(members: Members, log: seq<Send>, since: nat) {
    forall fp, t | fp in members && t in members[fp].notifiedTargets :: Backed(log, since, fp, t)
  }

  /** Every message posted for an alert is among its targets. */
  ghost predicate AllRemembered(members: Members, log: seq<Send>, since: nat) {
    forall i, fp | since <= i < |log| && PostedOk(log[i]) && fp in Fps(log[i].members) ::
      fp in members && MadeTarget(log[i].channel, log[i].outcome) in members[fp].notifiedTargets
  }

  ghost predicate Apart(a: seq<NotifiedTarget>, b: seq<NotifiedTarget>) {
    forall t, u | t in a && u in b :: IdOf(t) != IdOf(u)
  }

  /** Two alerts share all their messages or none. */
  ghost predicate SameOrApart(members: Members) {
    forall a, b | a in members && b in members ::
      members[a].notifiedTargets == members[b].notifiedTargets
      || Apart(members[a].notifiedTargets, members[b].notifiedTargets)
  }

  ghost predicate Book(members: Members, log: seq<Send>, since: nat, channels: seq<string>) {
    && since <= |log|
    && WellKeyed(members)
    && (forall fp | fp in members :: Covered(members[fp], channels))
    && AllBacked(members, log, since)
    && AllRemembered(members, log, since)
    && SameOrApart(members)
  }

  /** The messages of the bucket are those of its alerts and of no others. */
  ghost predicate GoodBucket(members: Members, b: Bucket) {
    && b.members != []
    && Drawn(members, b.members)
    && (forall m | m in b.members :: m.notifiedTargets == b.targets)
    && (b.targets != [] ==> forall fp | fp in members && members[fp].notifiedTargets == b.targets :: fp in Fps(b.members))
  }

  lemma ApartDiffer(a: seq<NotifiedTarget>, b: seq<NotifiedTarget>)
    requires Apart(a, b) && (a != [] || b != [])
    ensures a != b
  {
    assert a != [] ==> a[0] in a;
    assert b != [] ==> b[0] in b;
  }

  // ------------------------------------------------- division into buckets

  lemma ChansMember(ts: seq<NotifiedTarget>, channels: seq<string>, t: NotifiedTarget)
    requires IsSubseq(Chans(ts), channels) && t in ts
    ensures t.channel in Chans(ts) && t.channel in channels
  {
    var i :| 0 <= i < |ts| && ts[i] == t;
    assert Chans(ts)[i] == t.channel;
    SubseqMembers(Chans(ts), channels);
  }

  lemma TargetsClean(members: Members, log: seq<Send>, since: nat, channels: seq<string>, fp: string)
    requires Book(members, log, since, channels) && fp in members
    requires forall ch | ch in channels :: CleanChannel(ch)
    requires forall s | s in log && PostedOk(s) :: '|' !in s.outcome.ts
    ensures Clean(members[fp].notifiedTargets)
  {
    forall t | t in members[fp].notifiedTargets ensures CleanTarget(t) {
      assert Covered(members[fp], channels);
      ChansMember(members[fp].notifiedTargets, channels, t);
      assert Backed(log, since, fp, t);
      var i :| since <= i < |log| && PostFor(log[i], fp, t);
      assert log[i] in log;
    }
  }

  /** The string key gathers exactly the alerts that share their messages. */
  lemma BucketIsGood(members: Members, log: seq<Send>, since: nat, channels: seq<string>, threshold: int, b: Bucket)
    requires Book(members, log, since, channels)
    requires forall ch | ch in channels :: CleanChannel(ch)
    requires forall s | s in log && PostedOk(s) :: '|' !in s.outcome.ts
    requires SentBucket(members, b) || FreshBucket(members, threshold, b)
    ensures GoodBucket(members, b)
  {
    forall m | m in b.members ensures m.notifiedTargets == b.targets {
      assert m.fingerprint in Fps(b.members) && members[m.fingerprint] == m;
      if b.targets == [] {
        assert m.fingerprint in Unsent(members);
      } else {
        var first := b.members[0];
        assert first in b.members && first.fingerprint in members && members[first.fingerprint] == first;
        assert m.fingerprint in KeyClass(members, TargetKey(b.targets));
        TargetsClean(members, log, since, channels, m.fingerprint);
        TargetsClean(members, log, since, channels, first.fingerprint);
        SameKeyShares(m.notifiedTargets, b.targets);
        assert !Apart(members[m.fingerprint].notifiedTargets, members[first.fingerprint].notifiedTargets);
      }
    }
    if b.targets != [] {
      forall fp | fp in members && members[fp].notifiedTargets == b.targets ensures fp in Fps(b.members) {
        assert fp in KeyClass(members, TargetKey(b.targets));
      }
    }
  }

  // --------------------------------------------------- one bucket's calls

  lemma {:induction false} ExistingExact(ts: seq<NotifiedTarget>)
    requires NoDup(Chans(ts))
    ensures forall ch | ch in Existing(ts) :: Existing(ts)[ch] in ts && Existing(ts)[ch].channel == ch
    ensures forall t | t in ts :: t.channel in Existing(ts) && Existing(ts)[t.channel] == t
  {
    if ts != [] {
      var prefix, last := Init(ts), Last(ts);
      assert Chans(prefix) == Init(Chans(ts));
      ExistingExact(prefix);
      assert ts == prefix + [last];
      forall t | t in prefix ensures t.channel != last.channel {
        var i :| 0 <= i < |prefix| && prefix[i] == t;
        assert Chans(ts)[i] == t.channel && Chans(ts)[|ts| - 1] == last.channel;
      }
    }
  }

  /** The call is the one the bucket makes for the channel, whatever Slack
      answers. */
  predicate FitsCall(b: Bucket, s: Send, ch: string) {
    s.channel == ch && s.members == b.members && s.op == OpFor(b.targets, ch)
  }

  predicate FitsCalls(b: Bucket, sends: seq<Send>, channels: seq<string>) {
    |sends| == |channels| && forall i | 0 <= i < |sends| :: FitsCall(b, sends[i], channels[i])
  }

  ghost predicate PostedAmong(sends: seq<Send>, t: NotifiedTarget) {
    exists s :: s in sends && PostedOk(s) && MadeTarget(s.channel, s.outcome) == t
  }

  /** What the calls leave: the old targets, and one for each accepted post. */
  ghost predicate KeptFacts(b: Bucket, sends: seq<Send>, channels: seq<string>) {
    var kept := Kept(b, sends);
    && IsSubseq(Chans(kept), channels)
    && (forall t | t in kept :: t in b.targets || PostedAmong(sends, t))
    && (forall s | s in sends && PostedOk(s) :: MadeTarget(s.channel, s.outcome) in kept)
    && (forall t | t in b.targets && t.channel in channels :: t in kept)
    && (!AnyFailed(sends) || (forall ch | ch in channels :: ch in Chans(b.targets)) ==> Chans(kept) == channels)
  }

  lemma FitsInit(b: Bucket, sends: seq<Send>, channels: seq<string>)
    requires sends != [] && FitsCalls(b, sends, channels)
    ensures FitsCalls(b, Init(sends), Init(channels)) && FitsCall(b, Last(sends), Last(channels))
    ensures sends == Init(sends) + [Last(sends)] && channels == Init(channels) + [Last(channels)]
  { }

  lemma AddedAre(b: Bucket, s: Send, ch: string)
    requires FitsCall(b, s, ch) && NoDup(Chans(b.targets))
    ensures var added := TargetAfter(b, s);
      && |added| <= 1
      && (forall t | t in added :: t.channel == ch
            && (t in b.targets || (PostedOk(s) && MadeTarget(s.channel, s.outcome) == t)))
      && (PostedOk(s) ==> MadeTarget(s.channel, s.outcome) in added)
      && (forall t | t in b.targets && t.channel == ch :: t in added)
      && (s.outcome.Accepted? || ch in Chans(b.targets) ==> |added| == 1)
  {
    ExistingExact(b.targets);
    if ch in Chans(b.targets) {
      var i :| 0 <= i < |b.targets| && Chans(b.targets)[i] == ch;
      assert b.targets[i] in b.targets;
    }
  }

  lemma {:induction false} KeptOrigins(b: Bucket, sends: seq<Send>, channels: seq<string>)
    requires FitsCalls(b, sends, channels) && NoDup(Chans(b.targets))
    ensures forall t | t in Kept(b, sends) :: t in b.targets || PostedAmong(sends, t)
    ensures forall s | s in sends && PostedOk(s) :: MadeTarget(s.channel, s.outcome) in Kept(b, sends)
    ensures forall t | t in b.targets && t.channel in channels :: t in Kept(b, sends)
  {
    if sends != [] {
      var before, s := Init(sends), Last(sends);
      FitsInit(b, sends, channels);
      KeptOrigins(b, before, Init(channels));
      AddedAre(b, s, Last(channels));
      forall t | t in Kept(b, sends) ensures t in b.targets || PostedAmong(sends, t) {
        if t in Kept(b, before) && t !in b.targets {
          assert PostedAmong(before, t);
          var r :| r in before && PostedOk(r) && MadeTarget(r.channel, r.outcome) == t;
          assert r in sends;
        } else if t !in b.targets {
          assert s in sends;
        }
      }
    }
  }

  lemma {:induction false} KeptChannels(b: Bucket, sends: seq<Send>, channels: seq<string>)
    requires FitsCalls(b, sends, channels) && NoDup(Chans(b.targets))
    ensures IsSubseq(Chans(Kept(b, sends)), channels)
    ensures !AnyFailed(sends) || (forall ch | ch in channels :: ch in Chans(b.targets)) ==> Chans(Kept(b, sends)) == channels
  {
    if sends == [] {
      assert Kept(b, sends) == [];
    } else {
      FitsInit(b, sends, channels);
      KeptChannels(b, Init(sends), Init(channels));
      AddedAre(b, Last(sends), Last(channels));
      KeptChans(Kept(b, Init(sends)), TargetAfter(b, Last(sends)), Init(channels), Last(channels));
      AnyFailedSnoc(Init(sends), Last(sends));
    }
  }

  lemma KeptAre(b: Bucket, sends: seq<Send>, channels: seq<string>)
    requires FitsCalls(b, sends, channels) && NoDup(Chans(b.targets))
    ensures KeptFacts(b, sends, channels)
  {
    KeptOrigins(b, sends, channels);
    KeptChannels(b, sends, channels);
  }

  lemma KeptChans(kept: seq<NotifiedTarget>, added: seq<NotifiedTarget>, chans: seq<string>, ch: string)
    requires IsSubseq(Chans(kept), chans)
    requires |added| <= 1 && forall t | t in added :: t.channel == ch
    ensures IsSubseq(Chans(kept + added), chans + [ch])
    ensures |added| == 1 ==> Chans(kept + added) == Chans(kept) + [ch]
  {
    var all, target := Chans(kept + added), chans + [ch];
    assert Init(target) == chans;
    if added == [] {
      assert all == Chans(kept);
      if all != [] && Last(all) == ch { SubseqDropLast(all, chans); }
    } else {
      assert all == Chans(kept) + [ch];
      assert Init(all) == Chans(kept);
    }
  }

  lemma {:induction false} SubseqDropLast(xs: seq<string>, ys: seq<string>)
    requires xs != [] && IsSubseq(xs, ys)
    ensures IsSubseq(Init(xs), ys)
    decreases |ys|
  {
    var rest := Init(xs);
    if Last(xs) == Last(ys) {
      if rest != [] && Last(rest) == Last(ys) { SubseqDropLast(rest, Init(ys)); }
    } else {
      SubseqDropLast(xs, Init(ys));
      if rest != [] && Last(rest) == Last(ys) { SubseqDropLast(rest, Init(ys)); }
    }
  }
}
