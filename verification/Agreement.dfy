/** What Slack shows agrees with the table. */
module Agreement {
  import opened Prelude
  import opened Members
  import opened Batching
  import opened Channels
  import opened Slack
  import opened Message
  import opened Cards
  import opened Flush
  import opened Groups
  import opened Protocol
  import opened Ledger
  import opened Delivery
  import opened Serialised

  // ------------------------------------------------ reading a channel back

  lemma {:induction false} ShownPast(log: seq<Send>, sends: seq<Send>, a: Address)
    requires forall s | s in sends :: SentTo(s) != Some(a) || s.outcome.Failed?
    ensures Shown(log + sends, a) == Shown(log, a)
    decreases |sends|
  {
    if sends == [] {
      assert log + sends == log;
    } else {
      assert Init(log + sends) == log + Init(sends) && Last(log + sends) == Last(sends);
      assert Last(sends) in sends;
      forall s | s in Init(sends) ensures s in sends { }
      ShownPast(log, Init(sends), a);
    }
  }

  lemma ShownAt(log: seq<Send>, sends: seq<Send>, k: nat, a: Address)
    requires k < |sends| && SentTo(sends[k]) == Some(a) && sends[k].outcome.Accepted?
    requires forall j | k < j < |sends| :: SentTo(sends[j]) != Some(a)
    ensures Shown(log + sends, a) == Some(sends[k])
  {
    var upTo, rest := log + sends[..k + 1], sends[k + 1..];
    assert Init(upTo) == log + sends[..k] && Last(upTo) == sends[k];
    assert log + sends == upTo + rest;
    ShownPast(upTo, rest, a);
  }

  /** Some call from the n-th on to that message was accepted. */
  ghost predicate Reached(log: seq<Send>, n: nat, a: Address) {
    exists i :: n <= i < |log| && SentTo(log[i]) == Some(a) && log[i].outcome.Accepted?
  }

  /** The channel shows the last accepted call, from the n-th on if there is
      one, and what it showed before otherwise. */
  lemma {:induction false} ShownSince(log: seq<Send>, n: nat, a: Address) returns (i: nat)
    requires n <= |log|
    ensures !Reached(log, n, a) ==> Shown(log, a) == Shown(log[..n], a)
    ensures Reached(log, n, a) ==> n <= i < |log| && SentTo(log[i]) == Some(a) && log[i].outcome.Accepted? && Shown(log, a) == Some(log[i])
    ensures !Reached(log, i + 1, a)
    decreases |log|
  {
    i := n;
    if |log| == n {
      assert log[..n] == log;
    } else if SentTo(Last(log)) == Some(a) && Last(log).outcome.Accepted? {
      i := |log| - 1;
    } else {
      i := ShownSince(Init(log), n, a);
      assert Init(log)[..n] == log[..n];
      if Reached(log, n, a) {
        var k :| n <= k < |log| && SentTo(log[k]) == Some(a) && log[k].outcome.Accepted?;
        assert Init(log)[k] == log[k];
      }
      if Reached(Init(log), n, a) {
        var k :| n <= k < |Init(log)| && SentTo(Init(log)[k]) == Some(a) && Init(log)[k].outcome.Accepted?;
        assert Init(log)[k] == log[k];
      }
    }
  }

  // --------------------------------------------------------- the invariant

  function Sharing(members: Members, ts: seq<NotifiedTarget>): set<string> {
    set x | x in members && members[x].notifiedTargets == ts
  }

  /** The call shows exactly the alerts that share the message, each with the
      status it was last shown with. */
  ghost predicate ShowsFor(members: Members, ts: seq<NotifiedTarget>, s: Send) {
    && !s.style.notificationOnly
    && NoDupFps(s.members) && Fps(s.members) == Sharing(members, ts)
    && forall m | m in s.members :: m.fingerprint in members && m.status == members[m.fingerprint].notifiedStatus
  }

  /** The call's content is that of the alerts that share the message, with
      their statuses in the table. */
  ghost predicate ShowsTable(members: Members, ts: seq<NotifiedTarget>, s: Send) {
    && !s.style.notificationOnly
    && NoDupFps(s.members) && Fps(s.members) == Sharing(members, ts)
    && forall m | m in s.members :: m.fingerprint in members && m.status == members[m.fingerprint].status
  }

  ghost predicate Reflects(members: Members, log: seq<Send>, fp: string, t: NotifiedTarget)
    requires fp in members
  {
    var shown := Shown(log, AddressOf(t));
    shown.Some? && ShowsFor(members, members[fp].notifiedTargets, shown.value)
  }

  /** Every message of an alert that counts as shown is up to its last status. */
  ghost predicate Faithful(members: Members, log: seq<Send>) {
    forall fp, t | fp in members && members[fp].notifiedStatus != "" && t in members[fp].notifiedTargets ::
      Reflects(members, log, fp, t)
  }

  /** Posts may be refused; updates are not. */
  ghost predicate UpdatesAccepted(log: seq<Send>) {
    forall s | s in log && s.op.Update? :: s.outcome.Accepted?
  }

  // -------------------------------------------------------- addresses

  lemma AddressesApart(log: seq<Send>, since: nat, x: string, y: string, t: NotifiedTarget, u: NotifiedTarget)
    requires FreshPosts(log) && Backed(log, since, x, t) && Backed(log, since, y, u) && IdOf(t) != IdOf(u)
    ensures AddressOf(t) != AddressOf(u)
  {
    var i :| since <= i < |log| && PostFor(log[i], x, t);
    var j :| since <= j < |log| && PostFor(log[j], y, u);
    MadeTargetAddress(log[i].channel, log[i].outcome);
    MadeTargetAddress(log[j].channel, log[j].outcome);
    if i < j {
      assert !SameMessage(log[i], log[j]);
    } else if j < i {
      assert !SameMessage(log[j], log[i]);
    }
  }

  /** A call that leaves a target went to that target's message. */
  lemma CallAddress(b: Bucket, s: Send, ch: string)
    requires FitsCall(b, s, ch) && NoDup(Chans(b.targets))
    ensures var added := TargetAfter(b, s);
      && (added == [] ==> s.outcome.Failed? && SentTo(s) == None)
      && (added != [] ==> |added| == 1 && added[0].channel == ch && SentTo(s) == Some(AddressOf(added[0])))
  {
    ExistingExact(b.targets);
    if ch !in Existing(b.targets) && s.outcome.Accepted? {
      MadeTargetAddress(s.channel, s.outcome);
    }
  }

  lemma {:induction false} KeptFrom(b: Bucket, sends: seq<Send>)
    ensures forall k, t | 0 <= k < |sends| && t in TargetAfter(b, sends[k]) :: t in Kept(b, sends)
    ensures forall t | t in Kept(b, sends) :: exists k :: 0 <= k < |sends| && t in TargetAfter(b, sends[k])
  {
    if sends != [] {
      var before := Init(sends);
      KeptFrom(b, before);
      forall t | t in Kept(b, sends) ensures exists k :: 0 <= k < |sends| && t in TargetAfter(b, sends[k]) {
        if t in Kept(b, before) {
          var k :| 0 <= k < |before| && t in TargetAfter(b, before[k]);
          assert sends[k] == before[k];
        } else {
          assert t in TargetAfter(b, sends[|sends| - 1]);
        }
      }
      forall k, t | 0 <= k < |sends| && t in TargetAfter(b, sends[k]) ensures t in Kept(b, sends) {
        if k < |before| { assert before[k] == sends[k]; }
      }
    }
  }

  /** Every call goes to a message kept for its channel, or to none. */
  lemma SentToKept(b: Bucket, sends: seq<Send>, channels: seq<string>, k: nat)
    requires FitsCalls(b, sends, channels) && NoDup(Chans(b.targets)) && k < |sends|
    ensures SentTo(sends[k]).Some? ==>
      exists t :: t in Kept(b, sends) && t.channel == channels[k] && SentTo(sends[k]) == Some(AddressOf(t))
  {
    CallAddress(b, sends[k], channels[k]);
    KeptFrom(b, sends);
    if TargetAfter(b, sends[k]) != [] { assert TargetAfter(b, sends[k])[0] in Kept(b, sends); }
  }

  // ------------------------------------------------------ one more bucket

  /** The messages of other alerts are left alone. */
  lemma OthersShown(members: Members, base: seq<Send>, since: nat, channels: seq<string>, b: Bucket, sends: seq<Send>,
                    fp: string, u: NotifiedTarget)
    requires Delivered(members, base, since, channels, b, sends)
    requires fp in members && fp !in Fps(b.members) && u in members[fp].notifiedTargets
    ensures forall s | s in sends :: SentTo(s) != Some(AddressOf(u))
    ensures Shown(base + sends, AddressOf(u)) == Shown(base, AddressOf(u))
  {
    var next := NextMembers(members, b, sends);
    var first := b.members[0].fingerprint;
    assert b.members[0] in b.members && first in Fps(b.members);
    InBucket(members, b, first);
    BucketTargets(members, base, since, channels, b);
    DeliveredBacked(members, base, since, channels, b, sends);
    KeptApart(members, base, since, channels, b, sends, fp);
    forall s | s in sends ensures SentTo(s) != Some(AddressOf(u)) {
      var k :| 0 <= k < |sends| && sends[k] == s;
      SentToKept(b, sends, channels, k);
      if SentTo(s).Some? {
        var t :| t in Kept(b, sends) && SentTo(s) == Some(AddressOf(t));
        assert t in next[first].notifiedTargets && u in next[fp].notifiedTargets;
        AddressesApart(base + sends, since, first, fp, t, u);
      }
    }
    ShownPast(base, sends, AddressOf(u));
  }

  lemma OthersReflect(members: Members, base: seq<Send>, since: nat, channels: seq<string>, b: Bucket, sends: seq<Send>,
                      fp: string, u: NotifiedTarget)
    requires Delivered(members, base, since, channels, b, sends)
    requires fp in members && fp !in Fps(b.members) && u in members[fp].notifiedTargets
    requires Reflects(members, base, fp, u)
    ensures fp in NextMembers(members, b, sends) && Reflects(NextMembers(members, b, sends), base + sends, fp, u)
  {
    OthersShown(members, base, since, channels, b, sends, fp, u);
    KeptApart(members, base, since, channels, b, sends, fp);
    SharingStays(members, b, Kept(b, sends), AnyFailed(sends), fp, u);
  }

  lemma SharingStays(members: Members, b: Bucket, kept: seq<NotifiedTarget>, failed: bool, fp: string, u: NotifiedTarget)
    requires GoodBucket(members, b) && fp in members && fp !in Fps(b.members) && u in members[fp].notifiedTargets
    requires Apart(kept, members[fp].notifiedTargets)
    ensures Sharing(Stamp(members, Fps(b.members), kept, failed), members[fp].notifiedTargets) == Sharing(members, members[fp].notifiedTargets)
    ensures Sharing(members, members[fp].notifiedTargets) !! Fps(b.members)
  {
    var ts := members[fp].notifiedTargets;
    assert kept != ts;
    forall x | x in Fps(b.members) ensures x in members && members[x].notifiedTargets != ts {
      InBucket(members, b, x);
    }
  }

  /** A message of the bucket gets the one call made for its channel, and shows
      it if Slack took it. */
  lemma OwnShown(members: Members, base: seq<Send>, since: nat, channels: seq<string>, b: Bucket, sends: seq<Send>,
                 fp: string, t: NotifiedTarget) returns (k: nat)
    requires Delivered(members, base, since, channels, b, sends)
    requires fp in Fps(b.members) && t in Kept(b, sends)
    ensures k < |sends| && SentTo(sends[k]) == Some(AddressOf(t))
    ensures forall j | 0 <= j < |sends| && j != k :: SentTo(sends[j]) != Some(AddressOf(t))
    ensures sends[k].outcome.Failed? ==> t in b.targets
    ensures Shown(base + sends, AddressOf(t)) == if sends[k].outcome.Accepted? then Some(sends[k]) else Shown(base, AddressOf(t))
  {
    BucketTargets(members, base, since, channels, b);
    KeptFrom(b, sends);
    k :| 0 <= k < |sends| && t in TargetAfter(b, sends[k]);
    CallAddress(b, sends[k], channels[k]);
    AddedAre(b, sends[k], channels[k]);
    forall j | 0 <= j < |sends| && j != k ensures SentTo(sends[j]) != Some(AddressOf(t)) {
      OtherChannel(members, base, since, channels, b, sends, fp, t, k, j);
    }
    if sends[k].outcome.Accepted? {
      ShownAt(base, sends, k, AddressOf(t));
    } else {
      ShownPast(base, sends, AddressOf(t));
    }
  }

  lemma OtherChannel(members: Members, base: seq<Send>, since: nat, channels: seq<string>, b: Bucket, sends: seq<Send>,
                     fp: string, t: NotifiedTarget, k: nat, j: nat)
    requires Delivered(members, base, since, channels, b, sends)
    requires fp in Fps(b.members) && t in Kept(b, sends)
    requires k < |sends| && j < |sends| && j != k && t.channel == channels[k]
    ensures SentTo(sends[j]) != Some(AddressOf(t))
  {
    var next := NextMembers(members, b, sends);
    InBucket(members, b, fp);
    BucketTargets(members, base, since, channels, b);
    DeliveredBacked(members, base, since, channels, b, sends);
    SentToKept(b, sends, channels, j);
    assert channels[j] != channels[k];
    if SentTo(sends[j]).Some? {
      var u :| u in Kept(b, sends) && u.channel == channels[j] && SentTo(sends[j]) == Some(AddressOf(u));
      assert u in next[fp].notifiedTargets && t in next[fp].notifiedTargets;
      AddressesApart(base + sends, since, fp, fp, t, u);
    }
  }

  /** The bucket's own messages show what was just sent. */
  lemma OwnReflect(members: Members, base: seq<Send>, since: nat, channels: seq<string>, b: Bucket, sends: seq<Send>,
                   fp: string, t: NotifiedTarget)
    requires Delivered(members, base, since, channels, b, sends) && !AnyFailed(sends)
    requires forall s | s in sends :: !s.style.notificationOnly
    requires fp in Fps(b.members) && t in Kept(b, sends)
    ensures fp in NextMembers(members, b, sends) && Reflects(NextMembers(members, b, sends), base + sends, fp, t)
  {
    var next := NextMembers(members, b, sends);
    InBucket(members, b, fp);
    var k := OwnShown(members, base, since, channels, b, sends, fp, t);
    assert sends[k] in sends && FitsCall(b, sends[k], channels[k]);
    OwnSharing(members, base, since, channels, b, sends, t);
    forall m | m in b.members ensures m.fingerprint in next && m.status == next[m.fingerprint].notifiedStatus {
      assert m.fingerprint in Fps(b.members);
    }
  }

  lemma StampedSharing(members: Members, b: Bucket, kept: seq<NotifiedTarget>, failed: bool)
    requires GoodBucket(members, b) && forall x | x in members && x !in Fps(b.members) :: members[x].notifiedTargets != kept
    ensures Sharing(Stamp(members, Fps(b.members), kept, failed), kept) == Fps(b.members)
  {
    forall x | x in Fps(b.members) ensures x in members { InBucket(members, b, x); }
  }

  lemma OwnSharing(members: Members, base: seq<Send>, since: nat, channels: seq<string>, b: Bucket, sends: seq<Send>, t: NotifiedTarget)
    requires Delivered(members, base, since, channels, b, sends) && t in Kept(b, sends)
    ensures Sharing(NextMembers(members, b, sends), Kept(b, sends)) == Fps(b.members)
  {
    var kept := Kept(b, sends);
    forall x | x in members && x !in Fps(b.members) ensures members[x].notifiedTargets != kept {
      KeptApart(members, base, since, channels, b, sends, x);
      ApartDiffer(kept, members[x].notifiedTargets);
    }
    StampedSharing(members, b, kept, AnyFailed(sends));
  }

  lemma OwnBefore(members: Members, b: Bucket)
    requires GoodBucket(members, b) && b.targets != []
    ensures Sharing(members, b.targets) == Fps(b.members)
  {
    forall x | x in Fps(b.members) ensures x in members && members[x].notifiedTargets == b.targets { InBucket(members, b, x); }
  }

  lemma DeliveredFaithful(members: Members, base: seq<Send>, since: nat, channels: seq<string>, b: Bucket, sends: seq<Send>)
    requires Delivered(members, base, since, channels, b, sends) && Faithful(members, base)
    requires UpdatesAccepted(sends) && forall s | s in sends :: !s.style.notificationOnly
    ensures Faithful(NextMembers(members, b, sends), base + sends)
  {
    var next := NextMembers(members, b, sends);
    forall fp, t | fp in next && next[fp].notifiedStatus != "" && t in next[fp].notifiedTargets
      ensures Reflects(next, base + sends, fp, t)
    {
      if fp !in Fps(b.members) {
        OthersReflect(members, base, since, channels, b, sends, fp, t);
      } else {
        RefusalsOnlyBefore(members, base, since, channels, b, sends, fp);
        OwnReflect(members, base, since, channels, b, sends, fp, t);
      }
    }
  }

  /** An alert that counts as shown has nothing left to post. */
  lemma RefusalsOnlyBefore(members: Members, base: seq<Send>, since: nat, channels: seq<string>, b: Bucket, sends: seq<Send>, fp: string)
    requires Delivered(members, base, since, channels, b, sends) && UpdatesAccepted(sends)
    requires fp in Fps(b.members) && NextMembers(members, b, sends)[fp].notifiedStatus != ""
    ensures !AnyFailed(sends)
  {
    InBucket(members, b, fp);
    BucketTargets(members, base, since, channels, b);
    ExistingExact(b.targets);
    if AnyFailed(sends) {
      assert Covered(members[fp], channels);
      forall s | s in sends ensures s.outcome.Accepted? {
        var k :| 0 <= k < |sends| && sends[k] == s;
        assert FitsCall(b, s, channels[k]);
        assert Chans(b.targets)[k] == channels[k] && b.targets[k] in b.targets;
      }
    }
  }

  // ------------------------------------------------------------- all runs

  predicate PlainEvent(e: Event) {
    e.Upsert? ==> !e.info.notificationOnly
  }

  ghost predicate AgreeInv(c: Cell, m: Mode) {
    match m
    case Free => c.row.Some? ==> !c.row.value.notificationOnly && Faithful(c.row.value.members, c.log)
    case Held(id) =>
      && id in c.open && c.row.Some? && !c.row.value.notificationOnly && !c.open[id].group.notificationOnly
      && |c.open[id].sends| <= |c.log| && Faithful(c.open[id].members, BaseLog(c.open[id], c.log))
    case Bad => true
  }

  lemma RecordedReflects(members: Members, log: seq<Send>, e: GroupMember, fp: string, t: NotifiedTarget)
    requires IsEvent(e) && fp in members && t in members[fp].notifiedTargets && Reflects(members, log, fp, t)
    ensures fp in Recorded(members, e) && Reflects(Recorded(members, e), log, fp, t)
  {
    var next, ts := Recorded(members, e), members[fp].notifiedTargets;
    forall x | x in members
      ensures next[x].notifiedTargets == members[x].notifiedTargets && next[x].notifiedStatus == members[x].notifiedStatus
    { }
    assert Sharing(next, ts) == Sharing(members, ts);
  }

  lemma RecordedFaithful(members: Members, log: seq<Send>, e: GroupMember)
    requires IsEvent(e) && Faithful(members, log)
    ensures Faithful(Recorded(members, e), log)
  {
    var next := Recorded(members, e);
    forall fp, t | fp in next && next[fp].notifiedStatus != "" && t in next[fp].notifiedTargets
      ensures Reflects(next, log, fp, t)
    {
      assert Reflects(members, log, fp, t);
      RecordedReflects(members, log, e, fp, t);
    }
  }

  lemma UpsertAgrees(cfg: Config, c: Cell, e: Event)
    requires e.Upsert? && AgreeInv(c, Free) && IsEvent(e.event) && PlainEvent(e)
    ensures AgreeInv(Step(cfg, c, e), Free)
  {
    if c.row.Some? { RecordedFaithful(c.row.value.members, c.log, e.event); }
  }

  lemma StampFaithful(cfg: Config, cur: Cursor, log: seq<Send>, since: nat)
    requires Midway(cfg, cur, log, since) && !Finished(cur) && BucketChanged(cur.buckets[cur.next])
    requires |cur.sends| == |ChannelsOf(cur.group)| && FreshPosts(log) && UpdatesAccepted(log)
    requires !cur.group.notificationOnly && Faithful(cur.members, BaseLog(cur, log))
    ensures Faithful(NextMembers(cur.members, cur.buckets[cur.next], cur.sends), log)
  {
    var b, channels, base := cur.buckets[cur.next], ChannelsOf(cur.group), BaseLog(cur, log);
    MidwayDelivered(cfg, cur, log, since);
    SendsOf(cfg, cur, log);
    DeliveredFaithful(cur.members, base, since, channels, b, cur.sends);
  }

  lemma SendsOf(cfg: Config, cur: Cursor, log: seq<Send>)
    requires |cur.sends| <= |log| && log == BaseLog(cur, log) + cur.sends && CallsSoFar(cfg, cur, |BaseLog(cur, log)|)
    requires !cur.group.notificationOnly
    ensures forall s | s in cur.sends :: s in log && !s.style.notificationOnly
  { }

  lemma StampStep(cfg: Config, c: Cell, id: nat) returns (after: Cell)
    requires id in c.open && !Finished(c.open[id]) && |c.open[id].sends| == |ChannelsOf(c.open[id].group)|
    requires BucketChanged(c.open[id].buckets[c.open[id].next])
    ensures after == Step(cfg, c, Work(id))
    ensures var cur := c.open[id];
      && after.log == c.log && after.row == c.row && id in after.open
      && after.open[id].group == cur.group && after.open[id].sends == []
      && after.open[id].members == NextMembers(cur.members, cur.buckets[cur.next], cur.sends)
  {
    after := Step(cfg, c, Work(id));
  }

  lemma BetweenBuckets(c: Cell, id: nat)
    requires id in c.open && c.row.Some? && !c.row.value.notificationOnly && !c.open[id].group.notificationOnly
    requires c.open[id].sends == [] && Faithful(c.open[id].members, c.log)
    ensures AgreeInv(c, Held(id))
  {
    assert BaseLog(c.open[id], c.log) == c.log;
  }

  lemma StampAgrees(cfg: Config, c: Cell, id: nat)
    requires id in c.open && !Finished(c.open[id]) && Midway(cfg, c.open[id], c.log, c.since)
    requires AgreeInv(c, Held(id)) && FreshPosts(c.log) && UpdatesAccepted(c.log)
    requires BucketChanged(c.open[id].buckets[c.open[id].next]) && |c.open[id].sends| == |ChannelsOf(c.open[id].group)|
    ensures AgreeInv(Step(cfg, c, Work(id)), Held(id))
  {
    StampFaithful(cfg, c.open[id], c.log, c.since);
    var after := StampStep(cfg, c, id);
    BetweenBuckets(after, id);
  }

  lemma CallAgrees(cfg: Config, c: Cell, id: nat)
    requires id in c.open && !Finished(c.open[id]) && AgreeInv(c, Held(id))
    requires c.log == BaseLog(c.open[id], c.log) + c.open[id].sends && CallsSoFar(cfg, c.open[id], |BaseLog(c.open[id], c.log)|)
    requires BucketChanged(c.open[id].buckets[c.open[id].next]) && |c.open[id].sends| < |ChannelsOf(c.open[id].group)|
    ensures AgreeInv(Step(cfg, c, Work(id)), Held(id))
  {
    CallMade(cfg, c.open[id], c.log);
  }

  lemma WorkAgrees(cfg: Config, c: Cell, id: nat)
    requires id in c.open && !Finished(c.open[id]) && Midway(cfg, c.open[id], c.log, c.since)
    requires AgreeInv(c, Held(id)) && FreshPosts(c.log) && UpdatesAccepted(c.log)
    ensures AgreeInv(Step(cfg, c, Work(id)), Held(id))
  {
    var cur := c.open[id];
    if BucketChanged(cur.buckets[cur.next]) {
      if |cur.sends| < |ChannelsOf(cur.group)| {
        CallAgrees(cfg, c, id);
      } else {
        StampAgrees(cfg, c, id);
      }
    } else {
      SkipAgrees(cfg, c, id);
    }
  }

  lemma SkipAgrees(cfg: Config, c: Cell, id: nat)
    requires id in c.open && !Finished(c.open[id]) && AgreeInv(c, Held(id))
    requires !BucketChanged(c.open[id].buckets[c.open[id].next])
    ensures AgreeInv(Step(cfg, c, Work(id)), Held(id))
  {
    var next := Step(cfg, c, Work(id)).open[id];
    assert next == c.open[id].(next := c.open[id].next + 1);
    assert BaseLog(next, c.log) == BaseLog(c.open[id], c.log);
  }

  lemma StepAgrees(cfg: Config, c: Cell, m: Mode, e: Event)
    requires SerialInv(cfg, c, m) && AgreeInv(c, m) && Enabled(cfg, c, e) && NextMode(m, e) != Bad && PlainEvent(e)
    requires FreshPosts(c.log) && UpdatesAccepted(c.log)
    ensures AgreeInv(Step(cfg, c, e), NextMode(m, e))
  {
    match e
    case Upsert(_, _, _) => if m.Free? { UpsertAgrees(cfg, c, e); }
    case Claim(_, _, buckets) => assert BaseLog(Opened(c.row.value, buckets), c.log) == c.log;
    case Work(id) => WorkAgrees(cfg, c, id);
    case Save(id, _) => assert BaseLog(c.open[id], c.log) == c.log;
    case _ =>
  }

  lemma AcceptedPrefix(log: seq<Send>, prefix: seq<Send>)
    requires prefix <= log && UpdatesAccepted(log)
    ensures UpdatesAccepted(prefix)
  {
    forall s | s in prefix ensures s in log { }
  }

  lemma {:induction false} RunAgrees(cfg: Config, c: Cell, m: Mode, tr: seq<Event>)
    requires SerialInv(cfg, c, m) && AgreeInv(c, m) && SerialRun(cfg, c, m, tr)
    requires (forall e | e in tr :: PlainEvent(e)) && UpdatesAccepted(Run(cfg, c, tr).log)
    ensures AgreeInv(Run(cfg, c, tr), ModeAfter(m, tr)) && SerialInv(cfg, Run(cfg, c, tr), ModeAfter(m, tr))
    decreases |tr|
  {
    if tr != [] {
      SerialRunStep(cfg, c, m, tr);
      StepKeeps(cfg, c, m, tr[0]);
      RunExtendsLog(cfg, c, m, tr);
      SanePrefix(Run(cfg, c, tr).log, c.log);
      AcceptedPrefix(Run(cfg, c, tr).log, c.log);
      assert PlainEvent(tr[0]);
      StepAgrees(cfg, c, m, tr[0]);
      forall e | e in tr[1..] ensures PlainEvent(e) { assert e in tr; }
      RunAgrees(cfg, Step(cfg, c, tr[0]), NextMode(m, tr[0]), tr[1..]);
    }
  }

  // ------------------------------------------------------ what is on show

  /** The current statuses of a set of alerts, counted. */
  function StillFiring(members: Members, fps: set<string>): set<string> {
    set fp | fp in fps && fp in members && !IsResolved(members[fp])
  }

  function NowResolved(members: Members, fps: set<string>): set<string> {
    set fp | fp in fps && fp in members && IsResolved(members[fp])
  }

  lemma {:induction false} CountsOfSet(members: Members, ms: seq<GroupMember>)
    requires NoDupFps(ms) && forall m | m in ms :: m.fingerprint in members && m.status == members[m.fingerprint].status
    ensures FiringCount(ms) == |StillFiring(members, Fps(ms))| && ResolvedCount(ms) == |NowResolved(members, Fps(ms))|
  {
    if ms == [] {
      assert StillFiring(members, Fps(ms)) == {} && NowResolved(members, Fps(ms)) == {};
    } else {
      var before, m := Init(ms), Last(ms);
      assert ms == before + [m];
      forall x | x in before ensures x in ms { }
      CountsOfSet(members, before);
      FpsSnoc(before, m);
      LastIsNew(ms);
      assert m in ms;
      OneMore(members, Fps(before), m.fingerprint);
    }
  }

  lemma OneMore(members: Members, fps: set<string>, fp: string)
    requires fp in members && fp !in fps
    ensures |StillFiring(members, fps + {fp})| == |StillFiring(members, fps)| + (if IsResolved(members[fp]) then 0 else 1)
    ensures |NowResolved(members, fps + {fp})| == |NowResolved(members, fps)| + (if IsResolved(members[fp]) then 1 else 0)
  {
    if IsResolved(members[fp]) {
      assert NowResolved(members, fps + {fp}) == NowResolved(members, fps) + {fp};
      assert StillFiring(members, fps + {fp}) == StillFiring(members, fps);
    } else {
      assert StillFiring(members, fps + {fp}) == StillFiring(members, fps) + {fp};
      assert NowResolved(members, fps + {fp}) == NowResolved(members, fps);
    }
  }

  /** The title of a message for these alerts, were it rendered now. */
  ghost predicate TitleIsCurrent(members: Members, fps: set<string>, h: Header) {
    && (h.resolvedMark <==> StillFiring(members, fps) == {})
    && h.tally == if |fps| == 1 then NoTally else Counts(|StillFiring(members, fps)|, |NowResolved(members, fps)|)
  }

  lemma ShownTitle(members: Members, ts: seq<NotifiedTarget>, s: Send)
    requires ShowsTable(members, ts, s) && s.members != []
    ensures TitleIsCurrent(members, Sharing(members, ts), HeaderOf(s.style, s.members))
  {
    CountsOfSet(members, s.members);
    CountFps(s.members);
    if |s.members| == 1 {
      var m := s.members[0];
      assert s.members == [m] && m in s.members;
      assert Init(s.members) == [] && FiringCount([]) == 0;
    }
  }

  /** The alerts that share the message are all resolved in the table. */
  ghost predicate AllResolvedNow(members: Members, fps: set<string>) {
    forall fp | fp in fps :: fp in members && members[fp].status == "resolved"
  }

  /** Its colour says whether they are, whatever order the alerts are listed in. */
  ghost predicate ColourIsCurrent(members: Members, fps: set<string>, s: Send) {
    forall card | IsCard(s.style, s.members, card) :: card.green <==> AllResolvedNow(members, fps)
  }

  lemma ShownColour(members: Members, ts: seq<NotifiedTarget>, s: Send)
    requires ShowsTable(members, ts, s) && s.members != []
    ensures ColourIsCurrent(members, Sharing(members, ts), s)
  {
    forall card | IsCard(s.style, s.members, card) ensures card.green <==> AllResolvedNow(members, Sharing(members, ts)) {
      GreenMeansResolved(s.style, s.members, card);
      ResolvedNow(members, ts, s);
    }
  }

  lemma ResolvedNow(members: Members, ts: seq<NotifiedTarget>, s: Send)
    requires ShowsTable(members, ts, s)
    ensures (forall m | m in s.members :: m.status == "resolved") <==> AllResolvedNow(members, Sharing(members, ts))
  {
    forall m | m in s.members ensures m.fingerprint in Sharing(members, ts) { assert m.fingerprint in Fps(s.members); }
    forall fp | fp in Sharing(members, ts) ensures exists m :: m in s.members && m.fingerprint == fp {
      assert fp in Fps(s.members);
    }
  }

  /** In every serialised run in which Slack refuses no update: whenever the
      row of a rule with a lifecycle is neither waiting nor claimed, in every
      channel of the rule there is a message for every alert of the group, and
      its title carries the RESOLVED marker and the firing and resolved counts
      of the alerts that share it, by their statuses in the table. */
  lemma SlackShowsTheTable(cfg: Config, tr: seq<Event>, fp: string, ch: string)
    requires SerialRun(cfg, EMPTY, Free, tr)
    requires (forall e | e in tr :: PlainEvent(e)) && UpdatesAccepted(Run(cfg, EMPTY, tr).log)
    requires var c := Run(cfg, EMPTY, tr);
      && c.open == map[] && c.row.Some? && !c.row.value.dirty
      && fp in c.row.value.members && ch in ChannelList(c.row.value.channel)
    ensures var c := Run(cfg, EMPTY, tr); var members := c.row.value.members;
      exists t, s :: t in members[fp].notifiedTargets && t.channel == ch && Shown(c.log, AddressOf(t)) == Some(s)
        && TitleIsCurrent(members, Sharing(members, members[fp].notifiedTargets), HeaderOf(s.style, s.members))
        && ColourIsCurrent(members, Sharing(members, members[fp].notifiedTargets), s)
  {
    StartsWell(cfg);
    RunAgrees(cfg, EMPTY, Free, tr);
    RunStatus(cfg, EMPTY, Free, tr);
    var c := Run(cfg, EMPTY, tr);
    var members := c.row.value.members;
    var ts := members[fp].notifiedTargets;
    assert ModeAfter(Free, tr) == Free;
    assert CaughtUp(members[fp]) && Covered(members[fp], ChannelList(c.row.value.channel));
    var k :| 0 <= k < |Chans(ts)| && Chans(ts)[k] == ch;
    assert ts[k] in ts && Reflects(members, c.log, fp, ts[k]);
    var s := Shown(c.log, AddressOf(ts[k])).value;
    assert fp in Sharing(members, ts) && fp in Fps(s.members);
    forall x | x in Sharing(members, ts) ensures members[x].notifiedStatus == members[x].status {
      assert CaughtUp(members[x]);
    }
    forall m | m in s.members ensures m.status == members[m.fingerprint].status { assert m.fingerprint in Fps(s.members); }
    ShownTitle(members, ts, s);
    ShownColour(members, ts, s);
    assert TitleIsCurrent(members, Sharing(members, ts), HeaderOf(s.style, s.members));
  }
}
