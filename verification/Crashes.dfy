/** Runs in which nothing is saved: any number of workers claim a group, work
    on it and crash, or are still at it, while webhooks land.  What holds of
    their calls, and which of the promises survive them. */
module Crashes {
  import opened Prelude
  import opened Members
  import opened Batching
  import opened Channels
  import opened Slack
  import opened Flush
  import opened Groups
  import opened Protocol
  import opened Ledger
  import opened Delivery
  import opened Serialised
  import opened Agreement

  function TargetsOf(members: Members, fp: string): seq<NotifiedTarget> {
    if fp in members then members[fp].notifiedTargets else []
  }

  function ShownStatus(members: Members, fp: string): string {
    if fp in members then members[fp].notifiedStatus else ""
  }

  /** No alert was lost, and the delivery bookkeeping is that of the start. */
  ghost predicate SameBooks(start: Members, members: Members) {
    && start.Keys <= members.Keys
    && forall fp | fp in members ::
         members[fp].notifiedTargets == TargetsOf(start, fp) && members[fp].notifiedStatus == ShownStatus(start, fp)
  }

  ghost predicate StandingBucket(b: Bucket, start: Members) {
    && b.members != []
    && (forall m | m in b.members ::
          b.targets == TargetsOf(start, m.fingerprint) && m.notifiedStatus == ShownStatus(start, m.fingerprint))
    && (b.targets != [] ==> NoDupFps(b.members) && Fps(b.members) == Sharing(start, b.targets))
  }

  /** The call is the one the start's bookkeeping asks for, for each of its
      alerts; an update carries all that share its message, and something new. */
  ghost predicate StandingCall(s: Send, start: Members, channels: seq<string>) {
    && s.members != [] && s.channel in channels
    && (forall m | m in s.members ::
          s.op == OpFor(TargetsOf(start, m.fingerprint), s.channel) && m.notifiedStatus == ShownStatus(start, m.fingerprint))
    && (s.op.Update? ==>
          && NoDupFps(s.members) && (exists m :: m in s.members && m.notifiedStatus != m.status)
          && forall m | m in s.members :: Fps(s.members) == Sharing(start, TargetsOf(start, m.fingerprint)))
  }

  ghost predicate StandingCursor(cur: Cursor, start: Members, channel: string) {
    cur.group.channel == channel && forall b | b in cur.buckets :: StandingBucket(b, start)
  }

  ghost predicate Known(bs: seq<Bucket>, fps: set<string>) {
    forall b | b in bs :: Fps(b.members) <= fps
  }

  /** The table still says what it said when the log was `base`. */
  ghost predicate Standing(c: Cell, start: Members, base: seq<Send>, since: nat, channel: string) {
    && c.row.Some? && c.since == since && base <= c.log && c.row.value.channel == channel
    && SameBooks(start, c.row.value.members) && Book(c.row.value.members, base, since, ChannelList(channel))
    && (forall id | id in c.open :: StandingCursor(c.open[id], start, channel) && Known(c.open[id].buckets, c.row.value.members.Keys))
    && (forall i | |base| <= i < |c.log| ::
          StandingCall(c.log[i], start, ChannelList(channel)) && Fps(c.log[i].members) <= c.row.value.members.Keys)
  }

  predicate NotSaving(e: Event) {
    !e.Save? && !e.Flush?
  }

  /** Any steps but saves, during which the row is not deleted. */
  ghost predicate UnsavedRun(cfg: Config, c: Cell, tr: seq<Event>) {
    Valid(cfg, c, tr) && RowStays(cfg, c, tr) && forall e | e in tr :: NotSaving(e)
  }

  // ------------------------------------------------------------ one step

  lemma UpsertStands(cfg: Config, c: Cell, e: Event, start: Members, base: seq<Send>, since: nat, channel: string)
    requires e.Upsert? && Standing(c, start, base, since, channel) && IsEvent(e.event)
    ensures Standing(Step(cfg, c, e), start, base, since, channel)
  {
    RecordedBook(c.row.value.members, base, since, ChannelList(channel), e.event);
  }

  lemma ClaimStands(cfg: Config, c: Cell, e: Event, start: Members, base: seq<Send>, since: nat, channel: string)
    requires e.Claim? && Standing(c, start, base, since, channel) && Enabled(cfg, c, e)
    requires Trackable(channel) && SaneSlack(base)
    ensures Standing(Step(cfg, c, e), start, base, since, channel)
  {
    var members := c.row.value.members;
    forall b | b in e.buckets ensures StandingBucket(b, start) && Fps(b.members) <= members.Keys {
      BucketIsGood(members, base, since, ChannelList(channel), cfg.threshold, b);
      GoodStands(b, start, members);
    }
  }

  lemma GoodStands(b: Bucket, start: Members, members: Members)
    requires GoodBucket(members, b) && SameBooks(start, members)
    ensures StandingBucket(b, start) && Fps(b.members) <= members.Keys
  {
    forall m | m in b.members
      ensures b.targets == TargetsOf(start, m.fingerprint) && m.notifiedStatus == ShownStatus(start, m.fingerprint)
    {
      assert m.fingerprint in members && members[m.fingerprint] == m;
    }
    if b.targets != [] {
      OwnBefore(members, b);
      SharingStands(start, members, b.targets);
    }
  }

  lemma AdvanceStands(cfg: Config, cur: Cursor, log: seq<Send>, start: Members, channel: string, fps: set<string>)
    requires StandingCursor(cur, start, channel) && !Finished(cur) && Known(cur.buckets, fps)
    ensures var (next, log') := Advance(cfg, cur, log);
      && StandingCursor(next, start, channel) && Known(next.buckets, fps)
      && (log' == log || (|log'| == |log| + 1 && log == log'[..|log|]
            && StandingCall(log'[|log|], start, ChannelList(channel)) && Fps(log'[|log|].members) <= fps))
  {
    var b, channels := cur.buckets[cur.next], ChannelsOf(cur.group);
    assert b in cur.buckets;
    if BucketChanged(b) && |cur.sends| < |channels| {
      CallStands(cfg, cur, b, log, start, channels[|cur.sends|], channels);
    }
  }

  lemma CallStands(cfg: Config, cur: Cursor, b: Bucket, log: seq<Send>, start: Members, ch: string, channels: seq<string>)
    requires StandingBucket(b, start) && BucketChanged(b) && ch in channels
    ensures StandingCall(SendFor(cfg.script, StyleOf(cur.group), b, ch, |log|), start, channels)
  {
    var s := SendFor(cfg.script, StyleOf(cur.group), b, ch, |log|);
    if s.op.Update? {
      assert b.targets != [];
      var m :| m in b.members && m.notifiedStatus != m.status;
      assert m in s.members;
    }
  }

  lemma WorkStands(cfg: Config, c: Cell, id: nat, start: Members, base: seq<Send>, since: nat, channel: string)
    requires Standing(c, start, base, since, channel) && id in c.open && !Finished(c.open[id])
    ensures Standing(Step(cfg, c, Work(id)), start, base, since, channel)
  {
    AdvanceStands(cfg, c.open[id], c.log, start, channel, c.row.value.members.Keys);
    var next := Step(cfg, c, Work(id));
    forall i | |base| <= i < |next.log|
      ensures StandingCall(next.log[i], start, ChannelList(channel)) && Fps(next.log[i].members) <= c.row.value.members.Keys
    {
      if i < |c.log| { assert next.log[i] == c.log[i]; }
    }
  }

  lemma StepStands(cfg: Config, c: Cell, e: Event, start: Members, base: seq<Send>, since: nat, channel: string)
    requires Standing(c, start, base, since, channel) && Enabled(cfg, c, e) && NotSaving(e) && Step(cfg, c, e).row.Some?
    requires Trackable(channel) && SaneSlack(base)
    ensures Standing(Step(cfg, c, e), start, base, since, channel)
  {
    match e
    case Upsert(_, _, _) => UpsertStands(cfg, c, e, start, base, since, channel);
    case Claim(_, _, _) => ClaimStands(cfg, c, e, start, base, since, channel);
    case Work(id) => WorkStands(cfg, c, id, start, base, since, channel);
    case _ =>
  }

  lemma {:induction false} RunStands(cfg: Config, c: Cell, tr: seq<Event>, start: Members, base: seq<Send>, since: nat, channel: string)
    requires Standing(c, start, base, since, channel) && UnsavedRun(cfg, c, tr)
    requires Trackable(channel) && SaneSlack(base)
    ensures Standing(Run(cfg, c, tr), start, base, since, channel)
    decreases |tr|
  {
    if tr != [] {
      assert tr[0] in tr;
      forall e | e in tr[1..] ensures NotSaving(e) { assert e in tr; }
      assert RowStays(cfg, Step(cfg, c, tr[0]), tr[1..]);
      StepStands(cfg, c, tr[0], start, base, since, channel);
      RunStands(cfg, Step(cfg, c, tr[0]), tr[1..], start, base, since, channel);
    }
  }

  lemma StandsAtFirst(cfg: Config, c: Cell)
    requires SerialInv(cfg, c, Free) && c.row.Some?
    ensures Standing(c, c.row.value.members, c.log, c.since, c.row.value.channel)
  { }

  // --------------------------------------------------- what holds of calls

  lemma OpForTarget(ts: seq<NotifiedTarget>, ch: string)
    requires NoDup(Chans(ts))
    ensures OpFor(ts, ch).Post? <==> ch !in Chans(ts)
    ensures forall t | t in ts && t.channel == ch :: OpFor(ts, ch) == Update(ApiChannel(t), t.ts)
    ensures OpFor(ts, ch).Update? ==> exists t :: t in ts && t.channel == ch
  {
    ExistingExact(ts);
    if ch in Chans(ts) {
      var i :| 0 <= i < |ts| && Chans(ts)[i] == ch;
      assert ts[i] in ts;
    }
    if ch in Existing(ts) {
      var i :| 0 <= i < |ts| && ts[i] == Existing(ts)[ch];
      assert Chans(ts)[i] == ch;
    }
  }

  lemma TargetsDistinct(members: Members, log: seq<Send>, since: nat, channels: seq<string>, fp: string)
    requires Book(members, log, since, channels) && NoDup(channels)
    ensures NoDup(Chans(TargetsOf(members, fp)))
  {
    if fp in members {
      assert Covered(members[fp], channels);
      SubseqNoDup(Chans(members[fp].notifiedTargets), channels);
    }
  }

  /** Whatever the workers and webhooks do, until something is saved: two
      accepted calls for an alert in a channel are two posts if and only if the
      alert had no message there when the first worker claimed the group; and
      it has none there still when the last one does. */
  lemma CallsRepeat(cfg: Config, c: Cell, tr: seq<Event>, i: nat, j: nat, fp: string)
    requires SerialInv(cfg, c, Free) && c.row.Some? && SaneSlack(c.log) && UnsavedRun(cfg, c, tr)
    requires var log := Run(cfg, c, tr).log;
      && |c.log| <= i < j < |log| && log[i].outcome.Accepted? && log[j].outcome.Accepted?
      && log[i].channel == log[j].channel && fp in Fps(log[i].members) && fp in Fps(log[j].members)
    ensures var done := Run(cfg, c, tr); var ch := done.log[i].channel;
      && (PostedOk(done.log[i]) && PostedOk(done.log[j]) <==> ch !in Chans(TargetsOf(c.row.value.members, fp)))
      && (!PostedOk(done.log[i]) && !PostedOk(done.log[j]) <==> ch in Chans(TargetsOf(c.row.value.members, fp)))
      && done.row.Some? && TargetsOf(done.row.value.members, fp) == TargetsOf(c.row.value.members, fp)
  {
    var start, channel := c.row.value.members, c.row.value.channel;
    var done := Run(cfg, c, tr);
    StandsAtFirst(cfg, c);
    RunStands(cfg, c, tr, start, c.log, c.since, channel);
    ChannelListFacts(channel);
    TargetsDistinct(start, c.log, c.since, ChannelList(channel), fp);
    OpForTarget(TargetsOf(start, fp), done.log[i].channel);
    CallOp(done.log[i], start, ChannelList(channel), fp);
    CallOp(done.log[j], start, ChannelList(channel), fp);
  }

  lemma CallOp(s: Send, start: Members, channels: seq<string>, fp: string)
    requires StandingCall(s, start, channels) && fp in Fps(s.members)
    ensures s.op == OpFor(TargetsOf(start, fp), s.channel)
  {
    var m :| m in s.members && m.fingerprint == fp;
  }

  // --------------------------------------------------- the ledger survives

  ghost predicate PostsSince(log: seq<Send>, n: nat) {
    exists i :: n <= i < |log| && PostedOk(log[i])
  }

  lemma NewPostIsNew(base: seq<Send>, log: seq<Send>, since: nat, fp: string, t: NotifiedTarget, i: nat)
    requires base <= log && FreshPosts(log) && Backed(base, since, fp, t) && |base| <= i < |log| && PostedOk(log[i])
    ensures MadeTarget(log[i].channel, log[i].outcome) != t
  {
    var j :| since <= j < |base| && PostFor(base[j], fp, t);
    assert log[j] == base[j] && !SameMessage(log[j], log[i]);
  }

  lemma Forgotten(members: Members, log: seq<Send>, since: nat, i: nat, fp: string)
    requires since <= i < |log| && PostedOk(log[i]) && fp in Fps(log[i].members)
    requires MadeTarget(log[i].channel, log[i].outcome) !in TargetsOf(members, fp)
    ensures !AllRemembered(members, log, since)
  { }

  lemma PostBreaksLedger(members: Members, base: seq<Send>, log: seq<Send>, since: nat, i: nat)
    requires AllBacked(members, base, since) && base <= log && FreshPosts(log) && since <= |base|
    requires |base| <= i < |log| && PostedOk(log[i]) && log[i].members != []
    ensures !AllRemembered(members, log, since)
  {
    var fp := log[i].members[0].fingerprint;
    assert log[i].members[0] in log[i].members && fp in Fps(log[i].members);
    forall t | t in TargetsOf(members, fp) ensures t != MadeTarget(log[i].channel, log[i].outcome) {
      assert Backed(base, since, fp, t);
      NewPostIsNew(base, log, since, fp, t, i);
    }
    Forgotten(members, log, since, i, fp);
  }

  lemma LedgerGrows(members: Members, base: seq<Send>, log: seq<Send>, since: nat)
    requires AllBacked(members, base, since) && AllRemembered(members, base, since) && base <= log && since <= |base|
    requires !PostsSince(log, |base|)
    ensures AllBacked(members, log, since) && AllRemembered(members, log, since)
  {
    assert log == base + log[|base|..];
    forall fp, t | fp in members && t in members[fp].notifiedTargets ensures Backed(log, since, fp, t) {
      assert Backed(base, since, fp, t);
      BackedGrows(base, log[|base|..], since, fp, t);
    }
    forall i, fp | since <= i < |log| && PostedOk(log[i]) && fp in Fps(log[i].members)
      ensures fp in members && MadeTarget(log[i].channel, log[i].outcome) in members[fp].notifiedTargets
    {
      assert i < |base| && base[i] == log[i];
    }
  }

  /** The row's ledger covers the calls made since the claim as well exactly
      when none of them was an accepted post. */
  lemma LedgerAfterCrash(members: Members, base: seq<Send>, log: seq<Send>, since: nat, channels: seq<string>)
    requires Book(members, base, since, channels) && base <= log && FreshPosts(log)
    requires forall i | |base| <= i < |log| :: log[i].members != []
    ensures Book(members, log, since, channels) <==> !PostsSince(log, |base|)
  {
    if PostsSince(log, |base|) {
      var i :| |base| <= i < |log| && PostedOk(log[i]);
      PostBreaksLedger(members, base, log, since, i);
    } else {
      LedgerGrows(members, base, log, since);
    }
  }

  lemma OnePostAfter(start: Members, members: Members, base: seq<Send>, log: seq<Send>, since: nat, channels: seq<string>,
                     i: nat, j: nat, fp: string)
    requires SameBooks(start, members) && Book(members, base, since, channels) && NoDup(channels) && base <= log
    requires since <= i < |base| <= j < |log| && StandingCall(log[j], start, channels)
    requires PostedOk(log[i]) && log[i].channel == log[j].channel && fp in Fps(log[i].members) && fp in Fps(log[j].members)
    ensures log[j].op == Update(Resolved(log[i].channel, log[i].outcome.channel), log[i].outcome.ts)
  {
    assert base[i] == log[i];
    var t := MadeTarget(log[i].channel, log[i].outcome);
    assert fp in members && t in members[fp].notifiedTargets;
    TargetsDistinct(members, base, since, channels, fp);
    OpForTarget(members[fp].notifiedTargets, t.channel);
    CallOp(log[j], start, channels, fp);
    MadeTargetAddress(log[i].channel, log[i].outcome);
  }

  /** What is updated was posted. */
  lemma UpdatedWasPosted(members: Members, base: seq<Send>, since: nat, channels: seq<string>, fp: string, ch: string) returns (i: nat)
    requires Book(members, base, since, channels) && NoDup(channels) && OpFor(TargetsOf(members, fp), ch).Update?
    ensures since <= i < |base| && PostedOk(base[i]) && fp in Fps(base[i].members) && base[i].channel == ch
  {
    TargetsDistinct(members, base, since, channels, fp);
    OpForTarget(TargetsOf(members, fp), ch);
    var t :| t in TargetsOf(members, fp) && t.channel == ch;
    assert Backed(base, since, fp, t);
    i :| since <= i < |base| && PostFor(base[i], fp, t);
  }

  lemma UpdateAfter(start: Members, members: Members, base: seq<Send>, log: seq<Send>, since: nat, channels: seq<string>, j: nat, fp: string)
    requires SameBooks(start, members) && Book(members, base, since, channels) && NoDup(channels) && base <= log
    requires |base| <= j < |log| && StandingCall(log[j], start, channels) && log[j].op.Update? && fp in Fps(log[j].members)
    ensures PostedBefore(log, since, j, fp)
  {
    CallOp(log[j], start, channels, fp);
    SameTargets(start, members, fp);
    var i := UpdatedWasPosted(members, base, since, channels, fp, log[j].channel);
    assert log[i] == base[i];
  }

  lemma SameTargets(start: Members, members: Members, fp: string)
    requires SameBooks(start, members)
    ensures TargetsOf(members, fp) == TargetsOf(start, fp)
  { }

  /** Without an accepted post, the calls never post an alert twice. */
  lemma OnePostStands(start: Members, members: Members, base: seq<Send>, log: seq<Send>, since: nat, channels: seq<string>)
    requires SameBooks(start, members) && Book(members, base, since, channels) && NoDup(channels) && base <= log
    requires forall j | |base| <= j < |log| :: StandingCall(log[j], start, channels)
    requires OnePost(base, since) && UpdatesPosted(base, since) && !PostsSince(log, |base|)
    ensures OnePost(log, since) && UpdatesPosted(log, since)
  {
    forall i, j, fp | since <= i < j < |log| && PostedOk(log[i]) && log[i].channel == log[j].channel
        && fp in Fps(log[i].members) && fp in Fps(log[j].members)
      ensures log[j].op == Update(Resolved(log[i].channel, log[i].outcome.channel), log[i].outcome.ts)
    {
      if j < |base| {
        assert base[i] == log[i] && base[j] == log[j];
      } else {
        assert i < |base|;
        OnePostAfter(start, members, base, log, since, channels, i, j, fp);
      }
    }
    forall j, fp | since <= j < |log| && log[j].op.Update? && fp in Fps(log[j].members)
      ensures PostedBefore(log, since, j, fp)
    {
      if j < |base| {
        assert base[j] == log[j] && PostedBefore(base, since, j, fp);
        var i :| since <= i < j && i < |base| && PostedOk(base[i]) && fp in Fps(base[i].members) && base[i].channel == base[j].channel;
        assert log[i] == base[i];
      } else {
        UpdateAfter(start, members, base, log, since, channels, j, fp);
      }
    }
  }

  lemma WaitingIsSerial(cfg: Config, c: Cell)
    requires c.open == map[] && c.row.Some? && c.row.value.dirty && Trackable(c.row.value.channel) && c.since <= |c.log|
    ensures SerialInv(cfg, c, Free) <==>
      OnePost(c.log, c.since) && UpdatesPosted(c.log, c.since) && Book(c.row.value.members, c.log, c.since, ChannelList(c.row.value.channel))
  { }

  /** Any number of workers claim a group, make any part of their calls and
      crash, with webhooks landing meanwhile.  Once the next webhook has landed
      the group's bookkeeping agrees with the calls made, and with it all hold
      that rests on it (no alert is posted twice, messages are for ever, no
      work is forgotten, flushes converge), if and only if none of the crashed
      workers had a post accepted. */
  lemma CrashIsSurvived(cfg: Config, c: Cell, tr: seq<Event>)
    requires SerialInv(cfg, c, Free) && c.row.Some? && UnsavedRun(cfg, c, tr) && SaneSlack(c.log)
    requires var done := Run(cfg, c, tr); FreshPosts(done.log) && done.open == map[] && done.row.Some? && done.row.value.dirty
    ensures var done := Run(cfg, c, tr); SerialInv(cfg, done, Free) <==> !PostsSince(done.log, |c.log|)
  {
    var start, channel := c.row.value.members, c.row.value.channel;
    var done := Run(cfg, c, tr);
    StandsAtFirst(cfg, c);
    RunStands(cfg, c, tr, start, c.log, c.since, channel);
    ChannelListFacts(channel);
    LedgerAfterCrash(done.row.value.members, c.log, done.log, c.since, ChannelList(channel));
    if !PostsSince(done.log, |c.log|) {
      OnePostStands(start, done.row.value.members, c.log, done.log, c.since, ChannelList(channel));
    }
    WaitingIsSerial(cfg, done);
  }

  // ------------------------------------------------ agreement with Slack

  /** Since the n-th call an update of a message of an alert that counts as
      shown was accepted. */
  ghost predicate Rewrote(members: Members, log: seq<Send>, n: nat) {
    exists i, fp, t :: n <= i < |log| && Rewrites(members, log[i], fp, t)
  }

  predicate Rewrites(members: Members, s: Send, fp: string, t: NotifiedTarget) {
    && fp in members && members[fp].notifiedStatus != "" && t in members[fp].notifiedTargets
    && s.op == Update(ApiChannel(t), t.ts) && s.outcome.Accepted?
  }

  lemma NoPostThere(base: seq<Send>, log: seq<Send>, since: nat, fp: string, t: NotifiedTarget, i: nat)
    requires base <= log && FreshPosts(log) && Backed(base, since, fp, t)
    requires |base| <= i < |log| && SentTo(log[i]) == Some(AddressOf(t)) && log[i].outcome.Accepted?
    ensures log[i].op == Update(ApiChannel(t), t.ts)
  {
    var j :| since <= j < |base| && PostFor(base[j], fp, t);
    assert log[j] == base[j];
    MadeTargetAddress(log[j].channel, log[j].outcome);
  }

  lemma SharingStands(start: Members, members: Members, ts: seq<NotifiedTarget>)
    requires SameBooks(start, members) && ts != []
    ensures Sharing(members, ts) == Sharing(start, ts)
  { }

  lemma UntouchedReflects(start: Members, members: Members, base: seq<Send>, log: seq<Send>, since: nat, fp: string, t: NotifiedTarget)
    requires SameBooks(start, members) && base <= log && FreshPosts(log) && AllBacked(start, base, since)
    requires fp in start && start[fp].notifiedStatus != "" && t in start[fp].notifiedTargets && Reflects(start, base, fp, t)
    requires !Rewrote(start, log, |base|)
    ensures fp in members && Reflects(members, log, fp, t)
  {
    var i := ShownSince(log, |base|, AddressOf(t));
    assert log[..|base|] == base;
    if Reached(log, |base|, AddressOf(t)) {
      NoPostThere(base, log, since, fp, t, i);
      assert Rewrites(start, log[i], fp, t);
    }
    SharingStands(start, members, start[fp].notifiedTargets);
  }

  lemma RewrittenIsStale(start: Members, members: Members, base: seq<Send>, log: seq<Send>, since: nat, channels: seq<string>,
                         k: nat, fp: string, t: NotifiedTarget)
    requires SameBooks(start, members) && base <= log && FreshPosts(log) && AllBacked(start, base, since)
    requires forall i | |base| <= i < |log| :: StandingCall(log[i], start, channels)
    requires |base| <= k < |log| && Rewrites(start, log[k], fp, t)
    ensures fp in members && !Reflects(members, log, fp, t)
  {
    var i := ShownSince(log, |base|, AddressOf(t));
    assert Reached(log, |base|, AddressOf(t));
    NoPostThere(base, log, since, fp, t, i);
    var m :| m in log[i].members && m.notifiedStatus != m.status;
    assert StandingCall(log[i], start, channels);
  }

  lemma FaithfulAfterCrash(start: Members, members: Members, base: seq<Send>, log: seq<Send>, since: nat, channels: seq<string>)
    requires SameBooks(start, members) && base <= log && FreshPosts(log) && AllBacked(start, base, since) && Faithful(start, base)
    requires forall i | |base| <= i < |log| :: StandingCall(log[i], start, channels)
    ensures Faithful(members, log) <==> !Rewrote(start, log, |base|)
  {
    if Rewrote(start, log, |base|) {
      var k, fp, t :| |base| <= k < |log| && Rewrites(start, log[k], fp, t);
      RewrittenIsStale(start, members, base, log, since, channels, k, fp, t);
    } else {
      forall fp, t | fp in members && members[fp].notifiedStatus != "" && t in members[fp].notifiedTargets
        ensures Reflects(members, log, fp, t)
      {
        UntouchedReflects(start, members, base, log, since, fp, t);
      }
    }
  }

  /** No call from the n-th on is for a notification-only rule, nor is one to
      come. */
  ghost predicate PlainSince(c: Cell, n: nat) {
    && c.row.Some? && !c.row.value.notificationOnly
    && (forall id | id in c.open :: !c.open[id].group.notificationOnly)
    && (forall i | n <= i < |c.log| :: !c.log[i].style.notificationOnly)
  }

  lemma StepPlain(cfg: Config, c: Cell, e: Event, n: nat) returns (next: Cell)
    requires PlainSince(c, n) && Enabled(cfg, c, e) && NotSaving(e) && PlainEvent(e) && Step(cfg, c, e).row.Some?
    ensures next == Step(cfg, c, e) && PlainSince(next, n)
  {
    next := Step(cfg, c, e);
  }

  lemma {:induction false} RunPlain(cfg: Config, c: Cell, tr: seq<Event>, n: nat)
    requires PlainSince(c, n) && UnsavedRun(cfg, c, tr) && forall e | e in tr :: PlainEvent(e)
    ensures PlainSince(Run(cfg, c, tr), n)
    decreases |tr|
  {
    if tr != [] {
      assert tr[0] in tr && RowStays(cfg, Step(cfg, c, tr[0]), tr[1..]);
      forall e | e in tr[1..] ensures NotSaving(e) && PlainEvent(e) { assert e in tr; }
      var next := StepPlain(cfg, c, tr[0], n);
      RunPlain(cfg, next, tr[1..], n);
    }
  }

  /** What the row records as shown is still what Slack shows, after the same
      runs, if and only if no update of a message of an alert that counts as
      shown was accepted: such a message shows what the row does not know of.
      Whether Slack then agrees with the statuses in the table is the matter of
      Recovery. */
  lemma CrashKeepsAgreement(cfg: Config, c: Cell, tr: seq<Event>)
    requires SerialInv(cfg, c, Free) && AgreeInv(c, Free) && c.row.Some? && UnsavedRun(cfg, c, tr) && SaneSlack(c.log)
    requires FreshPosts(Run(cfg, c, tr).log) && forall e | e in tr :: PlainEvent(e)
    ensures AgreeInv(Run(cfg, c, tr), Free) <==> !Rewrote(c.row.value.members, Run(cfg, c, tr).log, |c.log|)
  {
    var start, channel := c.row.value.members, c.row.value.channel;
    var done := Run(cfg, c, tr);
    StandsAtFirst(cfg, c);
    RunStands(cfg, c, tr, start, c.log, c.since, channel);
    RunPlain(cfg, c, tr, |c.log|);
    FaithfulAfterCrash(start, done.row.value.members, c.log, done.log, c.since, ChannelList(channel));
  }
}
