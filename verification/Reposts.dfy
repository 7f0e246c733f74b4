/** When a message is posted a second time: what the next flush makes of the
    crashes before it. */
module Reposts {
  import opened Prelude
  import opened Members
  import opened Batching
  import opened Channels
  import opened Message
  import opened Slack
  import opened Flush
  import opened Groups
  import opened Protocol
  import opened Ledger
  import opened Delivery
  import opened Serialised
  import opened Convergence
  import opened Crashes

  lemma {:induction false} FlushExtends(script: Script, style: GroupStyle, channels: seq<string>, bs: seq<Bucket>, p: Progress)
    ensures p.log <= AfterBuckets(script, style, channels, bs, p).log
  {
    if bs != [] { FlushExtends(script, style, channels, Init(bs), p); }
  }

  /** The log holds a call of the bucket for the channel. */
  predicate CalledAt(log: seq<Send>, j: nat, b: Bucket, ch: string) {
    && j < |log| && log[j].channel == ch && log[j].members == b.members
    && log[j].op == OpFor(b.targets, ch)
  }

  lemma CalledHere(script: Script, style: GroupStyle, channels: seq<string>, b: Bucket, p: Progress, ch: string) returns (j: nat)
    requires BucketChanged(b) && ch in channels
    ensures j >= |p.log| && CalledAt(AfterBucket(script, style, channels, b, p).log, j, b, ch)
  {
    var k :| 0 <= k < |channels| && channels[k] == ch;
    var sends := Calls(script, style, b, channels, |p.log|);
    assert sends[k] == SendFor(script, style, b, ch, |p.log| + k);
    j := |p.log| + k;
    assert (p.log + sends)[j] == sends[k];
  }

  lemma {:induction false} BucketIsCalled(script: Script, style: GroupStyle, channels: seq<string>, bs: seq<Bucket>, p: Progress,
                                          b: Bucket, ch: string) returns (j: nat)
    requires b in bs && BucketChanged(b) && ch in channels
    ensures j >= |p.log| && CalledAt(AfterBuckets(script, style, channels, bs, p).log, j, b, ch)
    decreases |bs|
  {
    var before := AfterBuckets(script, style, channels, Init(bs), p);
    FlushExtends(script, style, channels, Init(bs), p);
    if b in Init(bs) {
      j := BucketIsCalled(script, style, channels, Init(bs), p, b, ch);
    } else {
      assert bs == Init(bs) + [Last(bs)];
      j := CalledHere(script, style, channels, b, before, ch);
    }
  }

  /** An alert without a message in one of the channels is in a bucket that is
      sent. */
  lemma MissingIsChanged(members: Members, base: seq<Send>, since: nat, channels: seq<string>, b: Bucket, fp: string, ch: string)
    requires Book(members, base, since, channels) && GoodBucket(members, b) && fp in Fps(b.members)
    requires ch in channels && ch !in Chans(TargetsOf(members, fp)) && fp in members && members[fp].status != ""
    ensures BucketChanged(b) && b.targets == TargetsOf(members, fp)
  {
    InBucket(members, b, fp);
    assert Covered(members[fp], channels);
    assert members[fp].notifiedStatus == "";
  }

  lemma RepostIsPost(ts: seq<NotifiedTarget>, ch: string, log: seq<Send>, since: nat, i: nat, j: nat, b: Bucket, fp: string)
    requires since <= i < j && CalledAt(log, j, b, ch) && PostedOk(log[i]) && log[i].channel == ch
    requires fp in Fps(log[i].members) && fp in Fps(b.members) && b.targets == ts && OpFor(ts, ch).Post?
    ensures !OnePost(log, since)
  {
    assert fp in Fps(log[j].members) && log[j].op == Post;
  }

  lemma ForgottenIsReposted(cfg: Config, c: Cell, tr: seq<Event>, done: Cell, buckets: seq<Bucket>, p: Progress, i: nat)
    requires SerialInv(cfg, c, Free) && c.row.Some? && UnsavedRun(cfg, c, tr) && SaneSlack(c.log) && done == Run(cfg, c, tr)
    requires done.row.Some? && IsBucketing(done.row.value.members, cfg.threshold, buckets)
    requires forall fp | fp in done.row.value.members :: done.row.value.members[fp].status != ""
    requires |c.log| <= i < |done.log| && PostedOk(done.log[i])
    requires p == ProgressOf(cfg.script, Snapshot("", done.row.value), buckets, done.log)
    ensures !OnePost(p.log, c.since)
  {
    var start, channel, members := c.row.value.members, c.row.value.channel, done.row.value.members;
    var channels, s := ChannelList(channel), done.log[i];
    StandsAtFirst(cfg, c);
    RunStands(cfg, c, tr, start, c.log, c.since, channel);
    ChannelListFacts(channel);
    var fp := s.members[0].fingerprint;
    assert s.members[0] in s.members && fp in Fps(s.members);
    CallOp(s, start, channels, fp);
    TargetsDistinct(members, c.log, c.since, channels, fp);
    OpForTarget(TargetsOf(members, fp), s.channel);
    assert InSome(buckets, fp);
    var k :| 0 <= k < |buckets| && fp in Fps(buckets[k].members);
    BucketIsGood(members, c.log, c.since, channels, cfg.threshold, buckets[k]);
    MissingIsChanged(members, c.log, c.since, channels, buckets[k], fp, s.channel);
    var g := Snapshot("", done.row.value);
    var from := Progress(g.members, false, done.log);
    var j := BucketIsCalled(cfg.script, StyleOf(g), channels, buckets, from, buckets[k], s.channel);
    FlushExtends(cfg.script, StyleOf(g), channels, buckets, from);
    assert p.log[i] == s;
    RepostIsPost(TargetsOf(members, fp), s.channel, p.log, c.since, i, j, buckets[k], fp);
  }

  /** Any number of workers claim a group, make any part of their calls and
      crash, with webhooks landing meanwhile.  The next flush, whatever Slack
      makes of it, keeps "never re-posted" if and only if none of the crashed
      workers had a post accepted. */
  lemma CrashReposts(cfg: Config, c: Cell, tr: seq<Event>, now: int, savedAt: int, buckets: seq<Bucket>)
    requires SerialInv(cfg, c, Free) && c.row.Some? && UnsavedRun(cfg, c, tr) && SaneSlack(c.log)
    requires var done := Run(cfg, c, tr);
      && done.open == map[] && Enabled(cfg, done, Flush(now, savedAt, buckets))
      && SaneSlack(Step(cfg, done, Flush(now, savedAt, buckets)).log)
      && forall fp | fp in done.row.value.members :: done.row.value.members[fp].status != ""
    ensures var done := Run(cfg, c, tr); var after := Step(cfg, done, Flush(now, savedAt, buckets));
      OnePost(after.log, after.since) <==> !PostsSince(done.log, |c.log|)
  {
    var done := Run(cfg, c, tr);
    var after, g := Step(cfg, done, Flush(now, savedAt, buckets)), Snapshot("", done.row.value);
    FlushExtends(cfg.script, StyleOf(g), ChannelsOf(g), buckets, Progress(g.members, false, done.log));
    SanePrefix(after.log, done.log);
    CrashIsSurvived(cfg, c, tr);
    if PostsSince(done.log, |c.log|) {
      var i :| |c.log| <= i < |done.log| && PostedOk(done.log[i]);
      StandsAtFirst(cfg, c);
      RunStands(cfg, c, tr, c.row.value.members, c.log, c.since, c.row.value.channel);
      ForgottenIsReposted(cfg, c, tr, done, buckets, ProgressOf(cfg.script, g, buckets, done.log), i);
    } else {
      FlushKeeps(cfg, done, now, savedAt, buckets);
    }
  }
}
