/** Delivering one bucket keeps the ledger, and never posts a second message
    for an alert in a channel. */
module Delivery {
  import opened Prelude
  import opened Members
  import opened Batching
  import opened Slack
  import opened Flush
  import opened Ledger

  /** One bucket's calls, all of them made, on top of an agreeing ledger. */
  ghost predicate Delivered(members: Members, base: seq<Send>, since: nat, channels: seq<string>, b: Bucket, sends: seq<Send>) {
    && Book(members, base, since, channels)
    && GoodBucket(members, b)
    && NoDup(channels)
    && FitsCalls(b, sends, channels)
    && FreshPosts(base + sends)
  }

  function NextMembers(members: Members, b: Bucket, sends: seq<Send>): Members {
    Stamp(members, Fps(b.members), Kept(b, sends), AnyFailed(sends))
  }

  lemma InBucket(members: Members, b: Bucket, fp: string)
    requires GoodBucket(members, b) && fp in Fps(b.members)
    ensures fp in members && members[fp].notifiedTargets == b.targets && members[fp] in b.members
  {
    var m :| m in b.members && m.fingerprint == fp;
  }

  lemma BucketTargets(members: Members, log: seq<Send>, since: nat, channels: seq<string>, b: Bucket)
    requires Book(members, log, since, channels) && GoodBucket(members, b) && NoDup(channels)
    ensures NoDup(Chans(b.targets)) && IsSubseq(Chans(b.targets), channels)
    ensures forall t | t in b.targets :: t.channel in channels
  {
    var fp := b.members[0].fingerprint;
    assert b.members[0] in b.members;
    assert fp in Fps(b.members);
    InBucket(members, b, fp);
    assert Covered(members[fp], channels);
    SubseqNoDup(Chans(b.targets), channels);
    forall t | t in b.targets ensures t.channel in channels { ChansMember(b.targets, channels, t); }
  }

  lemma BackedGrows(log: seq<Send>, more: seq<Send>, since: nat, fp: string, t: NotifiedTarget)
    requires Backed(log, since, fp, t)
    ensures Backed(log + more, since, fp, t)
  {
    var i :| since <= i < |log| && PostFor(log[i], fp, t);
    assert (log + more)[i] == log[i];
  }

  /** A message of the bucket, old or just posted, belongs to no other alert. */
  lemma KeptApart(members: Members, base: seq<Send>, since: nat, channels: seq<string>, b: Bucket, sends: seq<Send>, fp: string)
    requires Delivered(members, base, since, channels, b, sends)
    requires fp in members && fp !in Fps(b.members)
    ensures Apart(Kept(b, sends), members[fp].notifiedTargets)
  {
    BucketTargets(members, base, since, channels, b);
    KeptAre(b, sends, channels);
    var first := b.members[0].fingerprint;
    assert b.members[0] in b.members && first in Fps(b.members);
    InBucket(members, b, first);
    forall t, u | t in Kept(b, sends) && u in members[fp].notifiedTargets ensures IdOf(t) != IdOf(u) {
      if t in b.targets {
        assert members[fp].notifiedTargets != b.targets;
        assert Apart(members[first].notifiedTargets, members[fp].notifiedTargets);
      } else {
        NewPostApart(base, since, sends, fp, t, u);
      }
    }
  }

  lemma NewPostApart(base: seq<Send>, since: nat, sends: seq<Send>, fp: string, t: NotifiedTarget, u: NotifiedTarget)
    requires FreshPosts(base + sends)
    requires PostedAmong(sends, t) && Backed(base, since, fp, u)
    ensures IdOf(t) != IdOf(u)
  {
    var s :| s in sends && PostedOk(s) && MadeTarget(s.channel, s.outcome) == t;
    var j :| 0 <= j < |sends| && sends[j] == s;
    var i :| since <= i < |base| && PostFor(base[i], fp, u);
    var log := base + sends;
    assert log[i] == base[i] && log[|base| + j] == s;
    assert !SameMessage(log[i], log[|base| + j]);
  }

  lemma DeliveredCovered(members: Members, base: seq<Send>, since: nat, channels: seq<string>, b: Bucket, sends: seq<Send>, fp: string)
    requires Delivered(members, base, since, channels, b, sends) && fp in members
    ensures fp in NextMembers(members, b, sends) && Covered(NextMembers(members, b, sends)[fp], channels)
  {
    assert Covered(members[fp], channels);
    if fp in Fps(b.members) {
      InBucket(members, b, fp);
      BucketTargets(members, base, since, channels, b);
      KeptAre(b, sends, channels);
    }
  }

  lemma DeliveredBacked(members: Members, base: seq<Send>, since: nat, channels: seq<string>, b: Bucket, sends: seq<Send>)
    requires Delivered(members, base, since, channels, b, sends)
    ensures AllBacked(NextMembers(members, b, sends), base + sends, since)
  {
    var next, log := NextMembers(members, b, sends), base + sends;
    BucketTargets(members, base, since, channels, b);
    KeptAre(b, sends, channels);
    forall fp, t | fp in next && t in next[fp].notifiedTargets ensures Backed(log, since, fp, t) {
      if fp !in Fps(b.members) {
        BackedGrows(base, sends, since, fp, t);
      } else {
        InBucket(members, b, fp);
        if t in b.targets {
          assert Backed(base, since, fp, t);
          BackedGrows(base, sends, since, fp, t);
        } else {
          var s :| s in sends && PostedOk(s) && MadeTarget(s.channel, s.outcome) == t;
          var j :| 0 <= j < |sends| && sends[j] == s;
          assert FitsCall(b, sends[j], channels[j]);
          assert log[|base| + j] == s && PostFor(s, fp, t);
        }
      }
    }
  }

  lemma DeliveredRemembered(members: Members, base: seq<Send>, since: nat, channels: seq<string>, b: Bucket, sends: seq<Send>)
    requires Delivered(members, base, since, channels, b, sends)
    ensures AllRemembered(NextMembers(members, b, sends), base + sends, since)
  {
    var next, log := NextMembers(members, b, sends), base + sends;
    BucketTargets(members, base, since, channels, b);
    KeptAre(b, sends, channels);
    forall i, fp | since <= i < |log| && PostedOk(log[i]) && fp in Fps(log[i].members)
      ensures fp in next && MadeTarget(log[i].channel, log[i].outcome) in next[fp].notifiedTargets
    {
      if i < |base| {
        assert log[i] == base[i];
        assert fp in members && MadeTarget(log[i].channel, log[i].outcome) in members[fp].notifiedTargets;
        if fp in Fps(b.members) { InBucket(members, b, fp); }
      } else {
        var s := sends[i - |base|];
        assert log[i] == s && s in sends;
        assert FitsCall(b, s, channels[i - |base|]);
        InBucket(members, b, fp);
      }
    }
  }

  lemma DeliveredApart(members: Members, base: seq<Send>, since: nat, channels: seq<string>, b: Bucket, sends: seq<Send>)
    requires Delivered(members, base, since, channels, b, sends)
    ensures SameOrApart(NextMembers(members, b, sends))
  {
    var next, kept := NextMembers(members, b, sends), Kept(b, sends);
    forall fp | fp in members && fp !in Fps(b.members) ensures Apart(kept, members[fp].notifiedTargets) {
      KeptApart(members, base, since, channels, b, sends, fp);
    }
    forall x, y | x in next && y in next
      ensures next[x].notifiedTargets == next[y].notifiedTargets || Apart(next[x].notifiedTargets, next[y].notifiedTargets)
    {
      if x in Fps(b.members) {
        if y !in Fps(b.members) { assert Apart(kept, members[y].notifiedTargets); }
      } else if y in Fps(b.members) {
        assert Apart(kept, members[x].notifiedTargets);
      }
    }
  }

  lemma DeliveredBook(members: Members, base: seq<Send>, since: nat, channels: seq<string>, b: Bucket, sends: seq<Send>)
    requires Delivered(members, base, since, channels, b, sends)
    ensures Book(NextMembers(members, b, sends), base + sends, since, channels)
  {
    var next := NextMembers(members, b, sends);
    forall fp | fp in next ensures Covered(next[fp], channels) {
      DeliveredCovered(members, base, since, channels, b, sends, fp);
    }
    DeliveredBacked(members, base, since, channels, b, sends);
    DeliveredRemembered(members, base, since, channels, b, sends);
    DeliveredApart(members, base, since, channels, b, sends);
  }

  /** The buckets still to come are as they were. */
  lemma DeliveredOthers(members: Members, base: seq<Send>, since: nat, channels: seq<string>, b: Bucket, sends: seq<Send>, other: Bucket)
    requires Delivered(members, base, since, channels, b, sends)
    requires GoodBucket(members, other) && Fps(b.members) !! Fps(other.members)
    ensures GoodBucket(NextMembers(members, b, sends), other)
  {
    var next := NextMembers(members, b, sends);
    forall m | m in other.members ensures m.fingerprint in next && next[m.fingerprint] == m {
      assert m.fingerprint in Fps(other.members);
    }
    if other.targets != [] {
      var first := other.members[0];
      assert first in other.members && first.fingerprint in Fps(other.members);
      KeptApart(members, base, since, channels, b, sends, first.fingerprint);
      var t := other.targets[0];
      assert t in other.targets;
      assert Kept(b, sends) != other.targets;
      forall fp | fp in next && next[fp].notifiedTargets == other.targets ensures fp in Fps(other.members) { }
    }
  }

  // ------------------------------------------------------ never re-posted

  /** After an accepted post for an alert in a channel, every later call for
      both is an update of that very message. */
  ghost predicate OnePost(log: seq<Send>, since: nat) {
    forall i, j, fp | since <= i < j < |log| && PostedOk(log[i]) && log[i].channel == log[j].channel
        && fp in Fps(log[i].members) && fp in Fps(log[j].members) ::
      log[j].op == Update(Resolved(log[i].channel, log[i].outcome.channel), log[i].outcome.ts)
  }

  /** And nothing is updated that was not posted before. */
  ghost predicate UpdatesPosted(log: seq<Send>, since: nat) {
    forall j, fp | since <= j < |log| && log[j].op.Update? && fp in Fps(log[j].members) ::
      PostedBefore(log, since, j, fp)
  }

  ghost predicate PostedBefore(log: seq<Send>, since: nat, j: nat, fp: string) {
    exists i :: since <= i < j && i < |log| && j < |log| && PostedOk(log[i]) && fp in Fps(log[i].members) && log[i].channel == log[j].channel
  }

  /** Any part of a bucket's calls, made in channel order. */
  lemma CallsPostOnce(members: Members, base: seq<Send>, since: nat, channels: seq<string>, b: Bucket, sends: seq<Send>, some: seq<string>)
    requires Book(members, base, since, channels) && GoodBucket(members, b) && NoDup(channels)
    requires some <= channels && FitsCalls(b, sends, some)
    requires OnePost(base, since)
    ensures OnePost(base + sends, since)
  {
    var log := base + sends;
    BucketTargets(members, base, since, channels, b);
    ExistingExact(b.targets);
    forall i, j, fp | since <= i < j < |log| && PostedOk(log[i]) && log[i].channel == log[j].channel
        && fp in Fps(log[i].members) && fp in Fps(log[j].members)
      ensures log[j].op == Update(Resolved(log[i].channel, log[i].outcome.channel), log[i].outcome.ts)
    {
      if j < |base| {
        assert log[i] == base[i] && log[j] == base[j];
      } else {
        var s := sends[j - |base|];
        assert log[j] == s && FitsCall(b, s, some[j - |base|]) && some[j - |base|] == channels[j - |base|];
        if i < |base| {
          assert log[i] == base[i];
          var t := MadeTarget(log[i].channel, log[i].outcome);
          InBucket(members, b, fp);
          assert t in b.targets;
          MadeTargetAddress(log[i].channel, log[i].outcome);
        } else {
          assert false;
        }
      }
    }
  }

  lemma CallsUpdatePosted(members: Members, base: seq<Send>, since: nat, channels: seq<string>, b: Bucket, sends: seq<Send>, some: seq<string>)
    requires Book(members, base, since, channels) && GoodBucket(members, b) && NoDup(channels)
    requires some <= channels && FitsCalls(b, sends, some)
    requires UpdatesPosted(base, since)
    ensures UpdatesPosted(base + sends, since)
  {
    var log := base + sends;
    BucketTargets(members, base, since, channels, b);
    ExistingExact(b.targets);
    forall j, fp | since <= j < |log| && log[j].op.Update? && fp in Fps(log[j].members)
      ensures PostedBefore(log, since, j, fp)
    {
      if j < |base| {
        assert log[j] == base[j] && PostedBefore(base, since, j, fp);
        var i :| since <= i < j && i < |base| && PostedOk(base[i]) && fp in Fps(base[i].members) && base[i].channel == base[j].channel;
        assert log[i] == base[i];
      } else {
        var ch := some[j - |base|];
        assert log[j] == sends[j - |base|] && FitsCall(b, log[j], ch);
        InBucket(members, b, fp);
        var t := Existing(b.targets)[ch];
        assert t in members[fp].notifiedTargets && Backed(base, since, fp, t);
        var i :| since <= i < |base| && PostFor(base[i], fp, t);
        assert log[i] == base[i];
      }
    }
  }
}
