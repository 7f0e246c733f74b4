/** Repeated webhooks and one-shot notifications. */
module Repeats {
  import opened Prelude
  import opened Members
  import opened Batching
  import opened Slack
  import opened Flush
  import opened Groups
  import opened Protocol
  import opened Ledger
  import opened Delivery
  import opened Serialised
  import opened Guarantees

  // ------------------------------------------------------ repeated events

  /** The alerts are those of base, as far as delivery is concerned, and all
      their messages are up to date. */
  ghost predicate Unmoved(base: Members, members: Members) {
    && members.Keys == base.Keys && WellKeyed(members)
    && forall fp | fp in base ::
         && members[fp].status == base[fp].status
         && members[fp].notifiedTargets == base[fp].notifiedTargets && CaughtUp(members[fp])
  }

  ghost predicate IdleCursor(base: Members, cur: Cursor) {
    && Unmoved(base, cur.members) && !cur.failed && cur.sends == []
    && forall b | b in cur.buckets :: !BucketChanged(b)
  }

  ghost predicate QuietInv(base: Members, c: Cell, last: int) {
    && c.row.Some? && Unmoved(base, c.row.value.members) && c.row.value.updatedAt >= last
    && forall id | id in c.open :: IdleCursor(base, c.open[id])
  }

  /** A webhook repeating what the group already knows, or anything else but a
      webhook; saves and cleanups come no earlier than the last webhook, and
      a cleanup at most `olderThan` after it. */
  predicate QuietEvent(cfg: Config, base: Members, e: Event, last: int) {
    match e
    case Upsert(_, event, now) =>
      event.fingerprint in base && event.status == base[event.fingerprint].status && last <= now <= last + cfg.olderThan
    case Save(_, now) => now >= last
    case Cleanup(now) => now <= last + cfg.olderThan
    case Flush(_, _, _) => false
    case _ => true
  }

  function LastWebhook(e: Event, last: int): int {
    if e.Upsert? then e.now else last
  }

  ghost predicate QuietRun(cfg: Config, base: Members, tr: seq<Event>, last: int)
    decreases |tr|
  {
    tr == [] || (QuietEvent(cfg, base, tr[0], last) && QuietRun(cfg, base, tr[1..], LastWebhook(tr[0], last)))
  }

  lemma QuietWork(cfg: Config, base: Members, cur: Cursor, log: seq<Send>)
    requires IdleCursor(base, cur) && !Finished(cur)
    ensures var (next, log') := Advance(cfg, cur, log); IdleCursor(base, next) && log' == log
  {
    assert cur.buckets[cur.next] in cur.buckets;
  }

  lemma QuietUpsert(base: Members, r: Row, info: GroupInfo, e: GroupMember, cfg: Config, now: int)
    requires Unmoved(base, r.members) && IsEvent(e) && e.fingerprint in base && e.status == base[e.fingerprint].status
    ensures var next := Upserted(Some(r), info, e, cfg.debounce, cfg.maxWindow, now);
      Unmoved(base, next.members) && next.updatedAt == now
  { }

  lemma QuietClaim(base: Members, r: Row, threshold: int, buckets: seq<Bucket>)
    requires Unmoved(base, r.members) && IsBucketing(r.members, threshold, buckets)
    ensures IdleCursor(base, Opened(r, buckets))
  {
    forall b | b in buckets ensures !BucketChanged(b) {
      QuietBuckets(r.members, threshold, buckets, b);
    }
  }

  lemma QuietStep(cfg: Config, base: Members, c: Cell, e: Event, last: int)
    requires QuietInv(base, c, last) && Enabled(cfg, c, e) && QuietEvent(cfg, base, e, last)
    ensures QuietInv(base, Step(cfg, c, e), LastWebhook(e, last)) && Step(cfg, c, e).log == c.log
  {
    match e
    case Upsert(info, event, now) => QuietUpsert(base, c.row.value, info, event, cfg, now);
    case Claim(_, _, buckets) => QuietClaim(base, c.row.value, cfg.threshold, buckets);
    case Work(id) => QuietWork(cfg, base, c.open[id], c.log);
    case _ =>
  }

  /** Once every alert of a group is shown with its status, any interleaving of
      repeated webhooks, flushes by any number of workers, crashes and
      cleanups makes no Slack call and keeps the row, as long as no cleanup
      comes more than `olderThan` after the last webhook. */
  lemma {:induction false} QuietGroupStaysQuiet(cfg: Config, base: Members, c: Cell, tr: seq<Event>, last: int)
    requires QuietInv(base, c, last) && Valid(cfg, c, tr) && QuietRun(cfg, base, tr, last)
    ensures var done := Run(cfg, c, tr); done.log == c.log && done.row.Some? && Unmoved(base, done.row.value.members)
    decreases |tr|
  {
    if tr != [] {
      QuietStep(cfg, base, c, tr[0], last);
      QuietGroupStaysQuiet(cfg, base, Step(cfg, c, tr[0]), tr[1..], LastWebhook(tr[0], last));
    }
  }

  /** Every reachable clean group is such a group. */
  lemma CleanIsQuiet(cfg: Config, c: Cell)
    requires SerialInv(cfg, c, Free) && c.row.Some? && !c.row.value.dirty
    ensures QuietInv(c.row.value.members, c, c.row.value.updatedAt)
  { }

  // ------------------------------------------------------ settled alerts

  function StatusesOf(members: Members, ts: seq<NotifiedTarget>): map<string, string> {
    map fp | fp in members && members[fp].notifiedTargets == ts :: members[fp].status
  }

  /** In every reachable clean row all alerts are settled. */
  lemma CleanIsSettled(cfg: Config, c: Cell, fp: string)
    requires SerialInv(cfg, c, Free) && c.row.Some? && !c.row.value.dirty && fp in c.row.value.members
    ensures var members := c.row.value.members; var ts := members[fp].notifiedTargets;
      ts != [] && fp in StatusesOf(members, ts) && Settled(members, StatusesOf(members, ts), ts)
  {
    assert CaughtUp(c.row.value.members[fp]);
  }

  /** The alerts that share the messages ts are those of `statuses`, and each
      is shown with its status there. */
  ghost predicate Settled(members: Members, statuses: map<string, string>, ts: seq<NotifiedTarget>) {
    && (forall fp | fp in statuses ::
          fp in members && members[fp].notifiedTargets == ts && members[fp].notifiedStatus == members[fp].status == statuses[fp])
    && (forall fp | fp in members && members[fp].notifiedTargets == ts :: fp in statuses)
  }

  /** A webhook about one of the alerts repeats its status. */
  predicate Repeating(e: Event, statuses: map<string, string>) {
    e.Upsert? && e.event.fingerprint in statuses ==> e.event.status == statuses[e.event.fingerprint]
  }

  /** No call from the n-th on carries one of the alerts. */
  ghost predicate LeftAlone(log: seq<Send>, n: nat, statuses: map<string, string>) {
    forall i | n <= i < |log| :: Fps(log[i].members) !! statuses.Keys
  }

  lemma SettledBucket(members: Members, statuses: map<string, string>, ts: seq<NotifiedTarget>, b: Bucket)
    requires Settled(members, statuses, ts) && ts != [] && GoodBucket(members, b)
    ensures b.targets == ts ==> !BucketChanged(b)
  {
    forall m | m in b.members ensures b.targets == ts ==> m.notifiedStatus == m.status {
      assert m.fingerprint in members && members[m.fingerprint] == m;
    }
  }

  lemma SettledIsQuiet(members: Members, statuses: map<string, string>, ts: seq<NotifiedTarget>, b: Bucket)
    requires Settled(members, statuses, ts) && ts != [] && GoodBucket(members, b) && BucketChanged(b)
    ensures Fps(b.members) !! statuses.Keys
  {
    SettledBucket(members, statuses, ts, b);
    forall fp | fp in Fps(b.members) ensures fp !in statuses { InBucket(members, b, fp); }
  }

  lemma RecordedSettled(members: Members, statuses: map<string, string>, ts: seq<NotifiedTarget>, e: GroupMember)
    requires Settled(members, statuses, ts) && ts != [] && IsEvent(e)
    requires e.fingerprint in statuses ==> e.status == statuses[e.fingerprint]
    ensures Settled(Recorded(members, e), statuses, ts)
  { }

  lemma StampSettled(members: Members, fps: set<string>, kept: seq<NotifiedTarget>, failed: bool,
                     statuses: map<string, string>, ts: seq<NotifiedTarget>)
    requires Settled(members, statuses, ts) && fps !! statuses.Keys && kept != ts
    ensures Settled(Stamp(members, fps, kept, failed), statuses, ts)
  { }

  lemma DeliveredSettled(members: Members, base: seq<Send>, since: nat, channels: seq<string>, b: Bucket, sends: seq<Send>,
                         statuses: map<string, string>, ts: seq<NotifiedTarget>)
    requires Delivered(members, base, since, channels, b, sends) && BucketChanged(b)
    requires Settled(members, statuses, ts) && ts != [] && statuses != map[]
    ensures Settled(NextMembers(members, b, sends), statuses, ts)
  {
    SettledIsQuiet(members, statuses, ts, b);
    var fp :| fp in statuses;
    KeptApart(members, base, since, channels, b, sends, fp);
    ApartDiffer(Kept(b, sends), ts);
    StampSettled(members, Fps(b.members), Kept(b, sends), AnyFailed(sends), statuses, ts);
  }

  lemma CallSettled(cfg: Config, cur: Cursor, log: seq<Send>, statuses: map<string, string>)
    requires !Finished(cur) && BucketChanged(cur.buckets[cur.next]) && |cur.sends| < |ChannelsOf(cur.group)|
    requires Fps(cur.buckets[cur.next].members) !! statuses.Keys
    ensures var (next, log') := Advance(cfg, cur, log);
      next.members == cur.members && log <= log' && LeftAlone(log', |log|, statuses)
  { }

  lemma AdvanceSettled(cfg: Config, cur: Cursor, log: seq<Send>, since: nat, statuses: map<string, string>, ts: seq<NotifiedTarget>)
    returns (next: Cursor, log': seq<Send>)
    requires Midway(cfg, cur, log, since) && !Finished(cur) && FreshPosts(log)
    requires Settled(cur.members, statuses, ts) && ts != [] && statuses != map[]
    ensures (next, log') == Advance(cfg, cur, log)
    ensures Settled(next.members, statuses, ts) && log <= log' && LeftAlone(log', |log|, statuses)
  {
    var b := cur.buckets[cur.next];
    next, log' := Advance(cfg, cur, log).0, Advance(cfg, cur, log).1;
    if BucketChanged(b) {
      if |cur.sends| < |ChannelsOf(cur.group)| {
        SettledIsQuiet(cur.members, statuses, ts, b);
        CallSettled(cfg, cur, log, statuses);
      } else {
        MidwayDelivered(cfg, cur, log, since);
        DeliveredSettled(cur.members, BaseLog(cur, log), since, ChannelsOf(cur.group), b, cur.sends, statuses, ts);
      }
    }
  }

  lemma WorkSettled(cfg: Config, c: Cell, id: nat, statuses: map<string, string>, ts: seq<NotifiedTarget>)
    requires SerialInv(cfg, c, Held(id)) && Enabled(cfg, c, Work(id)) && FreshPosts(c.log)
    requires Settled(c.open[id].members, statuses, ts) && ts != [] && statuses != map[]
    ensures var next := Step(cfg, c, Work(id));
      && id in next.open && Settled(next.open[id].members, statuses, ts)
      && c.log <= next.log && LeftAlone(next.log, |c.log|, statuses)
  {
    var cur, log := AdvanceSettled(cfg, c.open[id], c.log, c.since, statuses, ts);
    assert Step(cfg, c, Work(id)) == c.(open := c.open[id := cur], log := log);
  }

  lemma ClaimKeepsView(cfg: Config, c: Cell, e: Event)
    requires e.Claim? && c.row.Some? && c.open == map[]
    ensures var next := Step(cfg, c, e);
      && next.row.Some? && e.id in next.open && next.log == c.log && next.open[e.id].members == c.row.value.members
  { }

  lemma SaveKeepsView(cfg: Config, c: Cell, id: nat, now: int)
    requires c.row.Some? && c.open.Keys == {id}
    ensures var next := Step(cfg, c, Save(id, now));
      next.row.Some? && next.log == c.log && next.row.value.members == c.open[id].members
  { }

  lemma CleanupKeepsView(cfg: Config, c: Cell, now: int)
    requires c.row.Some? && Step(cfg, c, Cleanup(now)).row.Some?
    ensures Step(cfg, c, Cleanup(now)) == c
  { }

  lemma RestKeepsView(cfg: Config, c: Cell, m: Mode, e: Event)
    requires SerialInv(cfg, c, m) && Enabled(cfg, c, e) && NextMode(m, e) != Bad && (e.Claim? || e.Save? || e.Cleanup?)
    requires c.row.Some? && Step(cfg, c, e).row.Some?
    ensures NextMode(m, e).Held? ==> NextMode(m, e).id in Step(cfg, c, e).open
    ensures View(Step(cfg, c, e), NextMode(m, e)) == View(c, m) && Step(cfg, c, e).log == c.log
  {
    match e
    case Claim(_, _, _) => ClaimKeepsView(cfg, c, e);
    case Save(id, now) => SaveKeepsView(cfg, c, id, now);
    case Cleanup(now) => CleanupKeepsView(cfg, c, now);
  }

  lemma StepSettled(cfg: Config, c: Cell, m: Mode, e: Event, statuses: map<string, string>, ts: seq<NotifiedTarget>) returns (next: Cell)
    requires SerialInv(cfg, c, m) && Enabled(cfg, c, e) && NextMode(m, e) != Bad && FreshPosts(c.log) && Repeating(e, statuses)
    requires c.row.Some? && Step(cfg, c, e).row.Some? && Settled(View(c, m), statuses, ts) && ts != [] && statuses != map[]
    ensures next == Step(cfg, c, e) && (NextMode(m, e).Held? ==> NextMode(m, e).id in next.open)
    ensures Settled(View(next, NextMode(m, e)), statuses, ts) && c.log <= next.log && LeftAlone(next.log, |c.log|, statuses)
  {
    next := Step(cfg, c, e);
    match e
    case Upsert(_, event, _) => if m.Free? { RecordedSettled(c.row.value.members, statuses, ts, event); }
    case Work(id) => WorkSettled(cfg, c, id, statuses, ts);
    case Claim(_, _, _) => RestKeepsView(cfg, c, m, e);
    case Save(_, _) => RestKeepsView(cfg, c, m, e);
    case Cleanup(_) => RestKeepsView(cfg, c, m, e);
    case _ =>
  }

  lemma LeftAloneOnward(log: seq<Send>, middle: seq<Send>, n: nat, statuses: map<string, string>)
    requires n <= |middle| && middle <= log && LeftAlone(middle, n, statuses) && LeftAlone(log, |middle|, statuses)
    ensures LeftAlone(log, n, statuses)
  {
    forall i | n <= i < |log| ensures Fps(log[i].members) !! statuses.Keys {
      if i < |middle| { assert log[i] == middle[i]; }
    }
  }

  /** Once the alerts of a message are shown with their statuses, webhooks that
      repeat them lead to no call about them, in any serialised run that keeps
      the row, whatever becomes of the other alerts of the group and whatever
      Slack refuses; and they stay settled. */
  lemma {:induction false} RepeatsAreAbsorbed(cfg: Config, c: Cell, m: Mode, tr: seq<Event>, statuses: map<string, string>, ts: seq<NotifiedTarget>)
    requires SerialInv(cfg, c, m) && SerialRun(cfg, c, m, tr) && RowStays(cfg, c, tr)
    requires ts != [] && statuses != map[] && Settled(View(c, m), statuses, ts)
    requires forall e | e in tr :: Repeating(e, statuses)
    ensures SerialInv(cfg, Run(cfg, c, tr), ModeAfter(m, tr)) && Run(cfg, c, tr).row.Some? && c.log <= Run(cfg, c, tr).log
    ensures Settled(View(Run(cfg, c, tr), ModeAfter(m, tr)), statuses, ts)
    ensures LeftAlone(Run(cfg, c, tr).log, |c.log|, statuses)
    decreases |tr|
  {
    if tr != [] {
      var e := tr[0];
      assert e in tr && RowStays(cfg, Step(cfg, c, e), tr[1..]);
      forall x | x in tr[1..] ensures Repeating(x, statuses) { assert x in tr; }
      SerialRunStep(cfg, c, m, tr);
      StepKeeps(cfg, c, m, e);
      StepExtendsLog(cfg, c, e);
      SanePrefix(Step(cfg, c, e).log, c.log);
      var next := StepSettled(cfg, c, m, e, statuses, ts);
      RepeatsAreAbsorbed(cfg, next, NextMode(m, e), tr[1..], statuses, ts);
      LeftAloneOnward(Run(cfg, c, tr).log, next.log, |c.log|, statuses);
    }
  }

  /** A step in time: nothing goes back behind the last webhook about the
      alerts, and a cleanup comes at most `olderThan` after it. */
  predicate InTime(cfg: Config, statuses: map<string, string>, e: Event, last: int) {
    match e
    case Upsert(_, _, now) => last <= now
    case Save(_, now) => last <= now
    case Flush(_, now, _) => last <= now
    case Cleanup(now) => now <= last + cfg.olderThan
    case _ => true
  }

  function LastAbout(statuses: map<string, string>, e: Event, last: int): int {
    if e.Upsert? && e.event.fingerprint in statuses then e.now else last
  }

  predicate AllInTime(cfg: Config, statuses: map<string, string>, tr: seq<Event>, last: int)
    decreases |tr|
  {
    tr == [] || (InTime(cfg, statuses, tr[0], last) && AllInTime(cfg, statuses, tr[1..], LastAbout(statuses, tr[0], last)))
  }

  /** Such steps never delete the row. */
  lemma {:induction false} RepeatsKeepTheRow(cfg: Config, c: Cell, tr: seq<Event>, statuses: map<string, string>, last: int)
    requires c.row.Some? && c.row.value.updatedAt >= last && AllInTime(cfg, statuses, tr, last)
    ensures RowStays(cfg, c, tr)
    decreases |tr|
  {
    if tr != [] {
      var next := KeptRow(cfg, c, tr[0], statuses, last);
      RepeatsKeepTheRow(cfg, next, tr[1..], statuses, LastAbout(statuses, tr[0], last));
    }
  }

  lemma KeptRow(cfg: Config, c: Cell, e: Event, statuses: map<string, string>, last: int) returns (next: Cell)
    requires c.row.Some? && c.row.value.updatedAt >= last && InTime(cfg, statuses, e, last)
    ensures next == Step(cfg, c, e) && next.row.Some? && next.row.value.updatedAt >= LastAbout(statuses, e, last)
  {
    next := Step(cfg, c, e);
  }

  /** Together: no cleanup comes more than `olderThan` after the last repetition,
      so the row is kept, and no call carries the alerts. */
  lemma RepeatsInTime(cfg: Config, c: Cell, m: Mode, tr: seq<Event>, statuses: map<string, string>, ts: seq<NotifiedTarget>, last: int)
    requires SerialInv(cfg, c, m) && SerialRun(cfg, c, m, tr) && c.row.Some? && c.row.value.updatedAt >= last
    requires ts != [] && statuses != map[] && Settled(View(c, m), statuses, ts)
    requires (forall e | e in tr :: Repeating(e, statuses)) && AllInTime(cfg, statuses, tr, last)
    ensures SerialInv(cfg, Run(cfg, c, tr), ModeAfter(m, tr)) && Run(cfg, c, tr).row.Some? && RowStays(cfg, c, tr)
    ensures Settled(View(Run(cfg, c, tr), ModeAfter(m, tr)), statuses, ts)
    ensures c.log <= Run(cfg, c, tr).log && LeftAlone(Run(cfg, c, tr).log, |c.log|, statuses)
  {
    RepeatsKeepTheRow(cfg, c, tr, statuses, last);
    RepeatsAreAbsorbed(cfg, c, m, tr, statuses, ts);
  }

  // -------------------------------------------------------- notifications

  /** A one-shot alert: never sent, or sent for good. */
  predicate OneShot(m: GroupMember) {
    m.status == "resolved" && (m.notifiedTargets != [] ==> m.notifiedStatus == m.status)
  }

  ghost predicate AllOneShot(members: Members) {
    forall fp | fp in members :: OneShot(members[fp])
  }

  ghost predicate OnlyPosts(log: seq<Send>) {
    forall s | s in log :: s.op.Post?
  }

  ghost predicate NoRefusals(log: seq<Send>) {
    forall s | s in log :: s.outcome.Accepted?
  }

  predicate OneShotEvent(e: Event) {
    e.Upsert? ==> e.event.status == "resolved"
  }

  ghost predicate OneShotInv(c: Cell, m: Mode) {
    && OnlyPosts(c.log)
    && match m
       case Free => c.row.Some? ==> AllOneShot(c.row.value.members)
       case Held(id) => id in c.open && AllOneShot(c.open[id].members)
       case Bad => true
  }

  /** A bucket of one-shot alerts is not sent again. */
  lemma SentIsUnchanged(members: Members, b: Bucket)
    requires GoodBucket(members, b) && AllOneShot(members)
    ensures b.targets != [] ==> !BucketChanged(b)
  {
    forall m | m in b.members ensures b.targets != [] ==> m.notifiedStatus == m.status {
      assert members[m.fingerprint] == m && OneShot(m);
    }
  }

  lemma CallIsPost(cfg: Config, cur: Cursor, log: seq<Send>)
    requires !Finished(cur) && GoodBucket(cur.members, cur.buckets[cur.next]) && AllOneShot(cur.members)
    requires BucketChanged(cur.buckets[cur.next]) && |cur.sends| < |ChannelsOf(cur.group)| && OnlyPosts(log)
    ensures var (next, log') := Advance(cfg, cur, log); OnlyPosts(log') && next.members == cur.members
  {
    SentIsUnchanged(cur.members, cur.buckets[cur.next]);
  }

  lemma StampIsOneShot(cfg: Config, cur: Cursor, log: seq<Send>)
    requires !Finished(cur) && AllOneShot(cur.members) && BucketChanged(cur.buckets[cur.next])
    requires |cur.sends| >= |ChannelsOf(cur.group)| && !AnyFailed(cur.sends)
    ensures var (next, log') := Advance(cfg, cur, log); log' == log && AllOneShot(next.members)
  { }

  lemma OneShotWork(cfg: Config, c: Cell, id: nat)
    requires id in c.open && !Finished(c.open[id]) && Midway(cfg, c.open[id], c.log, c.since)
    requires OneShotInv(c, Held(id)) && NoRefusals(c.log)
    ensures OneShotInv(Step(cfg, c, Work(id)), Held(id))
  {
    var cur := c.open[id];
    if BucketChanged(cur.buckets[cur.next]) {
      if |cur.sends| < |ChannelsOf(cur.group)| {
        CallIsPost(cfg, cur, c.log);
      } else {
        forall s | s in cur.sends ensures s.outcome.Accepted? { assert s in c.log; }
        StampIsOneShot(cfg, cur, c.log);
      }
    }
  }

  lemma RecordedOneShot(members: Members, e: GroupMember)
    requires AllOneShot(members) && IsEvent(e) && e.status == "resolved"
    ensures AllOneShot(Recorded(members, e))
  { }

  lemma OneShotStep(cfg: Config, c: Cell, m: Mode, e: Event)
    requires SerialInv(cfg, c, m) && OneShotInv(c, m) && Enabled(cfg, c, e) && NextMode(m, e) != Bad && OneShotEvent(e)
    requires NoRefusals(c.log)
    ensures OneShotInv(Step(cfg, c, e), NextMode(m, e))
  {
    match e
    case Upsert(_, event, _) =>
      if m.Free? && c.row.Some? { RecordedOneShot(c.row.value.members, event); }
    case Work(id) => OneShotWork(cfg, c, id);
    case _ =>
  }

  lemma {:induction false} OneShotRun(cfg: Config, c: Cell, m: Mode, tr: seq<Event>)
    requires SerialInv(cfg, c, m) && OneShotInv(c, m) && SerialRun(cfg, c, m, tr)
    requires (forall e | e in tr :: OneShotEvent(e)) && NoRefusals(Run(cfg, c, tr).log)
    ensures OneShotInv(Run(cfg, c, tr), ModeAfter(m, tr))
    decreases |tr|
  {
    if tr != [] {
      SerialRunStep(cfg, c, m, tr);
      StepKeeps(cfg, c, m, tr[0]);
      RunExtendsLog(cfg, c, m, tr);
      forall s | s in c.log ensures s.outcome.Accepted? { assert s in Run(cfg, c, tr).log; }
      assert OneShotEvent(tr[0]);
      OneShotStep(cfg, c, m, tr[0]);
      forall e | e in tr[1..] ensures OneShotEvent(e) { assert e in tr; }
      OneShotRun(cfg, Step(cfg, c, tr[0]), NextMode(m, tr[0]), tr[1..]);
    }
  }

  /** An alert of a notification-only rule, whose status is always forced to
      resolved, is posted at most once per channel in the life of its row and
      never edited, as long as Slack refuses nothing. */
  lemma NotificationsAreSentOnce(cfg: Config, tr: seq<Event>)
    requires SerialRun(cfg, EMPTY, Free, tr)
    requires (forall e | e in tr :: OneShotEvent(e)) && NoRefusals(Run(cfg, EMPTY, tr).log)
    ensures var c := Run(cfg, EMPTY, tr); OnlyPosts(c.log)
    ensures var c := Run(cfg, EMPTY, tr);
      forall i, j, fp | c.since <= i < j < |c.log| && fp in Fps(c.log[i].members) && fp in Fps(c.log[j].members) ::
        c.log[i].channel != c.log[j].channel
  {
    StartsWell(cfg);
    OneShotRun(cfg, EMPTY, Free, tr);
    NeverReposted(cfg, tr);
    var c := Run(cfg, EMPTY, tr);
    forall i | 0 <= i < |c.log| ensures PostedOk(c.log[i]) { assert c.log[i] in c.log; }
  }
}
