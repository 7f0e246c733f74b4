/** What one flush makes of the messages in Slack, whatever it refuses: which
    of them agree with the table afterwards. */
module Display {
  import opened Prelude
  import opened Members
  import opened Batching
  import opened Channels
  import opened Message
  import opened Slack
  import opened Flush
  import opened Groups
  import opened Protocol
  import opened Ledger
  import opened Delivery
  import opened Serialised
  import opened Convergence
  import opened Agreement

  /** The alert's message at t reflects the table. */
  ghost predicate Current(members: Members, log: seq<Send>, fp: string, t: NotifiedTarget) {
    && fp in members && t in members[fp].notifiedTargets
    && Shown(log, AddressOf(t)).Some? && ShowsTable(members, members[fp].notifiedTargets, Shown(log, AddressOf(t)).value)
  }

  ghost predicate Hit(sends: seq<Send>, a: Address) {
    exists s :: s in sends && SentTo(s) == Some(a) && s.outcome.Accepted?
  }

  // ------------------------------------------------------------ one bucket

  lemma OthersCurrent(members: Members, base: seq<Send>, since: nat, channels: seq<string>, b: Bucket, sends: seq<Send>,
                      fp: string, t: NotifiedTarget)
    requires Delivered(members, base, since, channels, b, sends)
    requires fp in members && fp !in Fps(b.members) && t in members[fp].notifiedTargets
    ensures !Hit(sends, AddressOf(t))
    ensures Current(NextMembers(members, b, sends), base + sends, fp, t) <==> Current(members, base, fp, t)
  {
    OthersShown(members, base, since, channels, b, sends, fp, t);
    KeptApart(members, base, since, channels, b, sends, fp);
    SharingStays(members, b, Kept(b, sends), AnyFailed(sends), fp, t);
  }

  lemma AcceptedIsCurrent(members: Members, log: seq<Send>, b: Bucket, kept: seq<NotifiedTarget>, failed: bool, s: Send,
                          fp: string, t: NotifiedTarget)
    requires GoodBucket(members, b) && fp in Fps(b.members) && t in kept && s.members == b.members && !s.style.notificationOnly
    requires Sharing(Stamp(members, Fps(b.members), kept, failed), kept) == Fps(b.members) && Shown(log, AddressOf(t)) == Some(s)
    ensures Current(Stamp(members, Fps(b.members), kept, failed), log, fp, t)
  {
    var next := Stamp(members, Fps(b.members), kept, failed);
    InBucket(members, b, fp);
    forall m | m in b.members ensures m.fingerprint in next && m.status == next[m.fingerprint].status {
      assert m.fingerprint in Fps(b.members);
    }
  }

  lemma RefusedIsAsBefore(members: Members, base: seq<Send>, log: seq<Send>, b: Bucket, kept: seq<NotifiedTarget>, failed: bool,
                          fp: string, t: NotifiedTarget)
    requires GoodBucket(members, b) && fp in Fps(b.members) && t in kept && t in b.targets
    requires Sharing(Stamp(members, Fps(b.members), kept, failed), kept) == Fps(b.members)
    requires Shown(log, AddressOf(t)) == Shown(base, AddressOf(t))
    ensures Current(Stamp(members, Fps(b.members), kept, failed), log, fp, t) <==> Current(members, base, fp, t)
  {
    InBucket(members, b, fp);
    OwnBefore(members, b);
  }

  lemma OwnCurrent(members: Members, base: seq<Send>, since: nat, channels: seq<string>, b: Bucket, sends: seq<Send>,
                   fp: string, t: NotifiedTarget)
    requires Delivered(members, base, since, channels, b, sends)
    requires forall s | s in sends :: !s.style.notificationOnly
    requires fp in Fps(b.members) && t in Kept(b, sends)
    ensures Current(NextMembers(members, b, sends), base + sends, fp, t) <==> Hit(sends, AddressOf(t)) || Current(members, base, fp, t)
    ensures Hit(sends, AddressOf(t)) || t in b.targets
    ensures !AnyFailed(sends) ==> Hit(sends, AddressOf(t))
  {
    var k := OwnShown(members, base, since, channels, b, sends, fp, t);
    OwnSharing(members, base, since, channels, b, sends, t);
    assert sends[k] in sends && FitsCall(b, sends[k], channels[k]);
    if sends[k].outcome.Accepted? {
      AcceptedIsCurrent(members, base + sends, b, Kept(b, sends), AnyFailed(sends), sends[k], fp, t);
    } else {
      RefusedIsAsBefore(members, base, base + sends, b, Kept(b, sends), AnyFailed(sends), fp, t);
    }
  }

  // ----------------------------------------------------------- one flush

  /** A flush under way: the ledger agrees and the buckets to come are good. */
  ghost predicate Flushing(p: Progress, later: seq<Bucket>, since: nat, channels: seq<string>) {
    && Book(p.members, p.log, since, channels) && NoDup(channels) && Disjoint(later)
    && forall b | b in later :: GoodBucket(p.members, b)
  }

  lemma BucketDelivered(script: Script, style: GroupStyle, channels: seq<string>, b: Bucket, p: Progress, since: nat)
    requires Book(p.members, p.log, since, channels) && NoDup(channels) && GoodBucket(p.members, b) && BucketChanged(b)
    requires FreshPosts(AfterBucket(script, style, channels, b, p).log)
    ensures Delivered(p.members, p.log, since, channels, b, Calls(script, style, b, channels, |p.log|))
  {
    var sends := Calls(script, style, b, channels, |p.log|);
    assert FitsCalls(b, sends, channels);
  }

  lemma FlushingStep(script: Script, style: GroupStyle, channels: seq<string>, b: Bucket, later: seq<Bucket>, p: Progress, since: nat)
    requires Flushing(p, [b] + later, since, channels)
    requires FreshPosts(AfterBucket(script, style, channels, b, p).log)
    ensures Flushing(AfterBucket(script, style, channels, b, p), later, since, channels)
  {
    assert ([b] + later)[0] == b;
    forall x | x in later ensures GoodBucket(p.members, x) && Fps(b.members) !! Fps(x.members) {
      var j :| 0 <= j < |later| && later[j] == x;
      assert ([b] + later)[j + 1] == x && x in [b] + later;
    }
    forall i, j | 0 <= i < j < |later| ensures Fps(later[i].members) !! Fps(later[j].members) {
      assert ([b] + later)[i + 1] == later[i] && ([b] + later)[j + 1] == later[j];
    }
    if BucketChanged(b) {
      var sends := Calls(script, style, b, channels, |p.log|);
      BucketDelivered(script, style, channels, b, p, since);
      DeliveredBook(p.members, p.log, since, channels, b, sends);
      forall x | x in later ensures GoodBucket(NextMembers(p.members, b, sends), x) {
        DeliveredOthers(p.members, p.log, since, channels, b, sends, x);
      }
    }
  }

  lemma {:induction false} FlushingPrefix(script: Script, style: GroupStyle, channels: seq<string>, bs: seq<Bucket>,
                                          later: seq<Bucket>, p: Progress, since: nat)
    requires Flushing(p, bs + later, since, channels)
    requires FreshPosts(AfterBuckets(script, style, channels, bs, p).log)
    ensures Flushing(AfterBuckets(script, style, channels, bs, p), later, since, channels)
    ensures p.log <= AfterBuckets(script, style, channels, bs, p).log
    decreases |bs|
  {
    if bs == [] {
      assert bs + later == later;
    } else {
      var b, before := Last(bs), AfterBuckets(script, style, channels, Init(bs), p);
      assert bs + later == Init(bs) + ([b] + later);
      FreshPrefix(AfterBuckets(script, style, channels, bs, p).log, before.log);
      FlushingPrefix(script, style, channels, Init(bs), [b] + later, p, since);
      FlushingStep(script, style, channels, b, later, before, since);
    }
  }

  ghost predicate Touched(bs: seq<Bucket>, fp: string) {
    exists b :: b in bs && fp in Fps(b.members) && BucketChanged(b)
  }

  /** What a flush has made of the alert's message at t, so far. */
  ghost predicate Followed(start: Progress, p: Progress, touched: bool, fp: string, t: NotifiedTarget) {
    && fp in start.members && fp in p.members
    && (t in start.members[fp].notifiedTargets ==> t in p.members[fp].notifiedTargets)
    && (!touched ==> p.members[fp] == start.members[fp])
    && (t in p.members[fp].notifiedTargets ==>
          && (Current(p.members, p.log, fp, t) <==> Reached(p.log, |start.log|, AddressOf(t)) || Current(start.members, start.log, fp, t))
          && (!touched ==> !Reached(p.log, |start.log|, AddressOf(t)))
          && (touched && !p.failed ==> Reached(p.log, |start.log|, AddressOf(t))))
  }

  lemma ReachedSnoc(log: seq<Send>, sends: seq<Send>, n: nat, a: Address)
    requires n <= |log|
    ensures Reached(log + sends, n, a) <==> Reached(log, n, a) || Hit(sends, a)
  {
    if Reached(log + sends, n, a) {
      var i :| n <= i < |log + sends| && SentTo((log + sends)[i]) == Some(a) && (log + sends)[i].outcome.Accepted?;
      if i < |log| { assert log[i] == (log + sends)[i]; } else { assert sends[i - |log|] in sends; }
    }
    if Reached(log, n, a) {
      var i :| n <= i < |log| && SentTo(log[i]) == Some(a) && log[i].outcome.Accepted?;
      assert (log + sends)[i] == log[i];
    }
    if Hit(sends, a) {
      var s :| s in sends && SentTo(s) == Some(a) && s.outcome.Accepted?;
      var k :| 0 <= k < |sends| && sends[k] == s;
      assert (log + sends)[|log| + k] == s;
    }
  }

  lemma FollowedOthers(start: Progress, p: Progress, touched: bool, since: nat, channels: seq<string>, b: Bucket, sends: seq<Send>,
                       fp: string, t: NotifiedTarget)
    requires Followed(start, p, touched, fp, t) && |start.log| <= |p.log|
    requires Delivered(p.members, p.log, since, channels, b, sends) && fp !in Fps(b.members)
    ensures Followed(start, Progress(NextMembers(p.members, b, sends), p.failed || AnyFailed(sends), p.log + sends), touched, fp, t)
  {
    if t in p.members[fp].notifiedTargets {
      OthersCurrent(p.members, p.log, since, channels, b, sends, fp, t);
      ReachedSnoc(p.log, sends, |start.log|, AddressOf(t));
    }
  }

  lemma FollowedOwn(start: Progress, p: Progress, since: nat, channels: seq<string>, b: Bucket, sends: seq<Send>,
                    fp: string, t: NotifiedTarget)
    requires Followed(start, p, false, fp, t) && |start.log| <= |p.log|
    requires Delivered(p.members, p.log, since, channels, b, sends) && fp in Fps(b.members)
    requires forall s | s in sends :: !s.style.notificationOnly
    ensures Followed(start, Progress(NextMembers(p.members, b, sends), p.failed || AnyFailed(sends), p.log + sends), true, fp, t)
  {
    InBucket(p.members, b, fp);
    BucketTargets(p.members, p.log, since, channels, b);
    KeptAre(b, sends, channels);
    if t in Kept(b, sends) {
      OwnCurrent(p.members, p.log, since, channels, b, sends, fp, t);
      ReachedSnoc(p.log, sends, |start.log|, AddressOf(t));
    }
  }

  lemma FollowedStep(start: Progress, p: Progress, touched: bool, script: Script, style: GroupStyle, channels: seq<string>, b: Bucket,
                     since: nat, fp: string, t: NotifiedTarget)
    requires Followed(start, p, touched, fp, t) && |start.log| <= |p.log| && !style.notificationOnly
    requires Book(p.members, p.log, since, channels) && NoDup(channels) && GoodBucket(p.members, b)
    requires FreshPosts(AfterBucket(script, style, channels, b, p).log)
    requires fp in Fps(b.members) && BucketChanged(b) ==> !touched
    ensures Followed(start, AfterBucket(script, style, channels, b, p), touched || (fp in Fps(b.members) && BucketChanged(b)), fp, t)
  {
    if BucketChanged(b) {
      var sends := Calls(script, style, b, channels, |p.log|);
      BucketDelivered(script, style, channels, b, p, since);
      forall s | s in sends ensures !s.style.notificationOnly { }
      if fp in Fps(b.members) {
        FollowedOwn(start, p, since, channels, b, sends, fp, t);
      } else {
        FollowedOthers(start, p, touched, since, channels, b, sends, fp, t);
      }
    }
  }

  lemma TouchedOnce(bs: seq<Bucket>, fp: string)
    requires bs != [] && Disjoint(bs)
    ensures fp in Fps(Last(bs).members) && BucketChanged(Last(bs)) ==> !Touched(Init(bs), fp)
    ensures Touched(bs, fp) <==> Touched(Init(bs), fp) || (fp in Fps(Last(bs).members) && BucketChanged(Last(bs)))
  {
    var b, before := Last(bs), Init(bs);
    if Touched(before, fp) {
      var x :| x in before && fp in Fps(x.members) && BucketChanged(x);
      var i :| 0 <= i < |before| && before[i] == x;
      assert bs[i] == x && bs[|bs| - 1] == b && x in bs;
      assert Fps(bs[i].members) !! Fps(bs[|bs| - 1].members);
    }
    assert b in bs;
    assert bs == before + [b];
  }

  lemma {:induction false} FlushFollows(script: Script, style: GroupStyle, channels: seq<string>, bs: seq<Bucket>, start: Progress,
                                        since: nat, fp: string, t: NotifiedTarget)
    requires Flushing(start, bs, since, channels) && !start.failed && !style.notificationOnly && fp in start.members
    requires FreshPosts(AfterBuckets(script, style, channels, bs, start).log)
    ensures Followed(start, AfterBuckets(script, style, channels, bs, start), Touched(bs, fp), fp, t)
    decreases |bs|
  {
    if bs != [] {
      var b, p := Last(bs), AfterBuckets(script, style, channels, Init(bs), start);
      assert bs == Init(bs) + [b];
      FreshPrefix(AfterBuckets(script, style, channels, bs, start).log, p.log);
      FlushingPrefix(script, style, channels, Init(bs), [b], start, since);
      assert b in [b];
      FlushingInit(start, bs, since, channels);
      FlushFollows(script, style, channels, Init(bs), start, since, fp, t);
      TouchedOnce(bs, fp);
      FollowedStep(start, p, Touched(Init(bs), fp), script, style, channels, b, since, fp, t);
    }
  }

  lemma FlushingInit(p: Progress, bs: seq<Bucket>, since: nat, channels: seq<string>)
    requires bs != [] && Flushing(p, bs, since, channels)
    ensures Flushing(p, Init(bs), since, channels)
  {
    forall b | b in Init(bs) ensures b in bs { }
  }

  lemma CellFlushing(cfg: Config, c: Cell, now: int, savedAt: int, buckets: seq<Bucket>) returns (start: Progress)
    requires SerialInv(cfg, c, Free) && Enabled(cfg, c, Flush(now, savedAt, buckets)) && SaneSlack(c.log)
    ensures start == Progress(c.row.value.members, false, c.log)
    ensures Flushing(start, buckets, c.since, ChannelList(c.row.value.channel))
    ensures var r := c.row.value;
      var p := AfterBuckets(cfg.script, GroupStyle(r.team, r.notificationOnly), ChannelList(r.channel), buckets, start);
      var after := Step(cfg, c, Flush(now, savedAt, buckets));
      after.log == p.log && after.row.Some? && after.row.value.members == p.members && (p.failed <==> after.row.value.dirty)
  {
    var r := c.row.value;
    start := Progress(r.members, false, c.log);
    ChannelListFacts(r.channel);
    forall b | b in buckets ensures GoodBucket(r.members, b) {
      BucketIsGood(r.members, c.log, c.since, ChannelList(r.channel), cfg.threshold, b);
    }
  }

  /** From any state a serialised run reaches, whatever Slack refused before
      and refuses now: after a flush an alert's message reflects the table if
      and only if the flush rewrote or posted it, or it already did. */
  lemma MessageAfterFlush(cfg: Config, c: Cell, now: int, savedAt: int, buckets: seq<Bucket>, fp: string, t: NotifiedTarget)
    requires SerialInv(cfg, c, Free) && Enabled(cfg, c, Flush(now, savedAt, buckets)) && !c.row.value.notificationOnly
    requires SaneSlack(Step(cfg, c, Flush(now, savedAt, buckets)).log) && fp in c.row.value.members
    ensures Step(cfg, c, Flush(now, savedAt, buckets)).row.Some?
    ensures var r, after := c.row.value, Step(cfg, c, Flush(now, savedAt, buckets));
      && fp in after.row.value.members
      && (t in r.members[fp].notifiedTargets ==> t in after.row.value.members[fp].notifiedTargets)
      && (t in after.row.value.members[fp].notifiedTargets ==>
           (Current(after.row.value.members, after.log, fp, t) <==>
              Reached(after.log, |c.log|, AddressOf(t)) || Current(r.members, c.log, fp, t)))
  {
    FlushKeeps(cfg, c, now, savedAt, buckets);
    SanePrefix(Step(cfg, c, Flush(now, savedAt, buckets)).log, c.log);
    var start := CellFlushing(cfg, c, now, savedAt, buckets);
    FlushFollows(cfg.script, GroupStyle(c.row.value.team, false), ChannelList(c.row.value.channel), buckets, start, c.since, fp, t);
  }

  /** When Slack takes every call of the flush, the condition is the guard that
      decides whether a bucket is sent: the message reflects the table if and
      only if its bucket had changed, or it already did.  A message that is
      stale although no status differs from the one last shown stays so. */
  lemma MessageAfterGoodFlush(cfg: Config, c: Cell, now: int, savedAt: int, buckets: seq<Bucket>, b: Bucket, fp: string, t: NotifiedTarget)
    requires SerialInv(cfg, c, Free) && Enabled(cfg, c, Flush(now, savedAt, buckets)) && !c.row.value.notificationOnly
    requires SaneSlack(Step(cfg, c, Flush(now, savedAt, buckets)).log) && Reliable(cfg.script, |c.log|)
    requires b in buckets && fp in Fps(b.members) && fp in c.row.value.members
    ensures Step(cfg, c, Flush(now, savedAt, buckets)).row.Some?
    ensures var r, after := c.row.value, Step(cfg, c, Flush(now, savedAt, buckets));
      fp in after.row.value.members && (t in after.row.value.members[fp].notifiedTargets ==>
        (Current(after.row.value.members, after.log, fp, t) <==> BucketChanged(b) || Current(r.members, c.log, fp, t)))
  {
    var r := c.row.value;
    FlushKeeps(cfg, c, now, savedAt, buckets);
    SanePrefix(Step(cfg, c, Flush(now, savedAt, buckets)).log, c.log);
    var start := CellFlushing(cfg, c, now, savedAt, buckets);
    FlushFollows(cfg.script, GroupStyle(r.team, false), ChannelList(r.channel), buckets, start, c.since, fp, t);
    ReliableFlush(cfg.script, GroupStyle(r.team, false), ChannelList(r.channel), buckets, start);
    OnlyBucket(buckets, b, fp);
  }

  lemma OnlyBucket(bs: seq<Bucket>, b: Bucket, fp: string)
    requires Disjoint(bs) && b in bs && fp in Fps(b.members)
    ensures Touched(bs, fp) <==> BucketChanged(b)
  {
    var j :| 0 <= j < |bs| && bs[j] == b;
    forall x | x in bs && fp in Fps(x.members) ensures x == b {
      var i :| 0 <= i < |bs| && bs[i] == x;
      SameIndex(bs, i, j, fp);
    }
  }

  lemma SameIndex(bs: seq<Bucket>, i: nat, j: nat, fp: string)
    requires Disjoint(bs) && i < |bs| && j < |bs| && fp in Fps(bs[i].members) && fp in Fps(bs[j].members)
    ensures i == j
  { }

  /** A message that reflects the table carries the right title and colour. */
  lemma CurrentTitle(members: Members, log: seq<Send>, fp: string, t: NotifiedTarget)
    requires Current(members, log, fp, t)
    ensures var s := Shown(log, AddressOf(t)).value;
      && TitleIsCurrent(members, Sharing(members, members[fp].notifiedTargets), HeaderOf(s.style, s.members))
      && ColourIsCurrent(members, Sharing(members, members[fp].notifiedTargets), s)
  {
    assert fp in Sharing(members, members[fp].notifiedTargets);
    ShownTitle(members, members[fp].notifiedTargets, Shown(log, AddressOf(t)).value);
    ShownColour(members, members[fp].notifiedTargets, Shown(log, AddressOf(t)).value);
  }
}
