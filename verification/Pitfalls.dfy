/** Where the code does otherwise than its comments say, and inputs on which
    the promises fail. */
module Pitfalls {
  import opened Prelude
  import opened Members
  import opened Batching
  import opened Channels
  import opened Message
  import opened Slack
  import opened Flush
  import opened Groups
  import opened Protocol
  import opened Single
  import opened Ledger
  import opened Delivery
  import opened Agreement
  import opened Display

  // -------------------------------------------------------------- the lease

  predicate NoWebhooks(tr: seq<Event>) {
    forall e | e in tr :: !e.Upsert?
  }

  lemma {:induction false} NothingRearms(cfg: Config, c: Cell, tr: seq<Event>)
    requires c.open == map[] && (c.row.Some? ==> !c.row.value.dirty)
    requires Valid(cfg, c, tr) && NoWebhooks(tr)
    ensures forall e | e in tr :: e.Cleanup?
    ensures var done := Run(cfg, c, tr); done.log == c.log && done.open == map[] && (done.row == c.row || done.row == None)
    decreases |tr|
  {
    if tr != [] {
      assert tr[0] in tr;
      forall e | e in tr[1..] ensures !e.Upsert? { assert e in tr; }
      NothingRearms(cfg, Step(cfg, c, tr[0]), tr[1..]);
    }
  }

  /** A claim clears `dirty`, and only a dirty row is ever claimed.  When the
      only holder of a group crashes, no worker touches the group again at any
      later time, the lease's end included, before a webhook does. */
  lemma LeaseRecoversNothing(cfg: Config, c: Cell, id: nat, tr: seq<Event>)
    requires c.open.Keys == {id} && (c.row.Some? ==> !c.row.value.dirty)
    requires Valid(cfg, Step(cfg, c, Crash(id)), tr)
    ensures (exists e :: e in tr && !e.Cleanup? && !e.Upsert?) ==> exists e :: e in tr && e.Upsert?
    ensures NoWebhooks(tr) ==> Run(cfg, Step(cfg, c, Crash(id)), tr).log == c.log
  {
    var crashed := Step(cfg, c, Crash(id));
    assert crashed.open == map[];
    if NoWebhooks(tr) { NothingRearms(cfg, crashed, tr); }
  }

  /** And that webhook does bring it back: the group is due from the end of
      its debounce on, or of its window if that is earlier. */
  lemma WebhookRearms(cfg: Config, c: Cell, e: Event, later: int)
    requires e.Upsert? && c.row.Some?
    ensures var r := Step(cfg, c, e).row.value;
      Due(r, later) <==> later >= e.now + cfg.debounce || later >= c.row.value.maxFlushBy
  { }

  // ---------------------------------------------------------- the overwrite

  /** The same report, but for what delivery wrote down. */
  predicate SameReport(a: GroupMember, b: GroupMember) {
    a.(notifiedTargets := b.notifiedTargets, notifiedStatus := b.notifiedStatus) == b
  }

  lemma DeafStep(cfg: Config, c: Cell, id: nat, e: Event) returns (next: Cell)
    requires id in c.open && Enabled(cfg, c, e) && (e.Upsert? || e == Work(id))
    ensures next == Step(cfg, c, e) && id in next.open && next.open[id].members.Keys == c.open[id].members.Keys
    ensures forall fp | fp in c.open[id].members :: SameReport(next.open[id].members[fp], c.open[id].members[fp])
    ensures c.row.Some? ==> next.row.Some?
  {
    next := Step(cfg, c, e);
  }

  /** What a holder will save are the alerts it claimed, as they were reported
      then, whatever arrives meanwhile. */
  lemma {:induction false} HolderIsDeaf(cfg: Config, c: Cell, id: nat, tr: seq<Event>)
    requires id in c.open && Valid(cfg, c, tr) && forall e | e in tr :: e.Upsert? || e == Work(id)
    ensures var done := Run(cfg, c, tr);
      && id in done.open && done.open[id].members.Keys == c.open[id].members.Keys
      && (forall fp | fp in c.open[id].members :: SameReport(done.open[id].members[fp], c.open[id].members[fp]))
      && (c.row.Some? ==> done.row.Some?)
    decreases |tr|
  {
    if tr != [] {
      assert tr[0] in tr;
      forall e | e in tr[1..] ensures e.Upsert? || e == Work(id) { assert e in tr; }
      var next := DeafStep(cfg, c, id, tr[0]);
      HolderIsDeaf(cfg, next, id, tr[1..]);
    }
  }

  /** The group knows all that the webhook reports: recording it changes
      nothing. */
  predicate Reported(members: Members, e: GroupMember) {
    e.fingerprint in members && Merge(members[e.fingerprint], e) == members[e.fingerprint]
  }

  lemma SameReportReported(a: GroupMember, b: GroupMember, e: GroupMember)
    requires SameReport(a, b) && IsEvent(e)
    ensures Merge(a, e) == a <==> Merge(b, e) == b
  { }

  lemma {:induction false} WebhooksAreEvents(cfg: Config, c: Cell, tr: seq<Event>, e: Event)
    requires Valid(cfg, c, tr) && e in tr && e.Upsert?
    ensures IsEvent(e.event)
    decreases |tr|
  {
    if e != tr[0] { WebhooksAreEvents(cfg, Step(cfg, c, tr[0]), tr[1..], e); }
  }

  /** What a webhook reports while a worker holds the group, its status, times,
      title or fields, is in the table after the save exactly when the worker's
      snapshot had it already; and the row is due again exactly when a call
      failed, so nothing makes up for it. */
  lemma LateWebhookSurvives(cfg: Config, c: Cell, id: nat, tr: seq<Event>, savedAt: int, e: Event, done: Cell)
    requires id in c.open && c.row.Some? && Valid(cfg, c, tr + [Save(id, savedAt)]) && done == Run(cfg, c, tr + [Save(id, savedAt)])
    requires (forall x | x in tr :: x.Upsert? || x == Work(id)) && e in tr && e.Upsert?
    ensures done.row.Some? && id in Run(cfg, c, tr).open
    ensures var members, snapshot := done.row.value.members, c.open[id].members;
      && members.Keys == snapshot.Keys && (forall fp | fp in snapshot :: SameReport(members[fp], snapshot[fp]))
      && (Reported(members, e.event) <==> Reported(snapshot, e.event))
    ensures done.row.value.dirty <==> Run(cfg, c, tr).open[id].failed
  {
    RunAppend(cfg, c, tr, [Save(id, savedAt)]);
    HolderIsDeaf(cfg, c, id, tr);
    WebhooksAreEvents(cfg, c, tr, e);
    var held := Run(cfg, c, tr);
    OneStep(cfg, held, Save(id, savedAt));
    assert done == Step(cfg, held, Save(id, savedAt));
    var fp, snapshot := e.event.fingerprint, c.open[id].members;
    if fp in snapshot { SameReportReported(held.open[id].members[fp], snapshot[fp], e.event); }
  }

  // --------------------------------------------------------------- the flap

  /** The two calls for a lone alert of a rule with two channels. */
  function BothSends(script: Script, style: GroupStyle, m: GroupMember, a: string, b: string, n: nat): seq<Send> {
    [SendFor(script, style, LoneBucket(m), a, n), SendFor(script, style, LoneBucket(m), b, n + 1)]
  }

  /** What they leave of the alert. */
  function Both(script: Script, style: GroupStyle, m: GroupMember, a: string, b: string, n: nat): GroupMember {
    var sends := BothSends(script, style, m, a, b, n);
    Stamped(m, TargetAfter(LoneBucket(m), sends[0]) + TargetAfter(LoneBucket(m), sends[1]),
            sends[0].outcome.Failed? || sends[1].outcome.Failed?)
  }

  lemma KeptOfTwo(b: Bucket, s: Send, r: Send)
    ensures Kept(b, [s, r]) == TargetAfter(b, s) + TargetAfter(b, r)
    ensures AnyFailed([s, r]) == (s.outcome.Failed? || r.outcome.Failed?)
  {
    assert Init([s, r]) == [s] && Init([s]) == [];
    assert Kept(b, [s]) == Kept(b, []) + TargetAfter(b, s) == TargetAfter(b, s);
    assert s in [s, r] && r in [s, r];
  }

  lemma CallsOfTwo(script: Script, style: GroupStyle, b: Bucket, x: string, y: string, n: nat)
    ensures Calls(script, style, b, [x, y], n) == [SendFor(script, style, b, x, n), SendFor(script, style, b, y, n + 1)]
  {
    var calls := Calls(script, style, b, [x, y], n);
    assert calls == [calls[0], calls[1]];
    assert [x, y][0] == x && [x, y][1] == y;
  }

  lemma LoneDelivery(script: Script, style: GroupStyle, m: GroupMember, a: string, b: string, log: seq<Send>)
    requires BucketChanged(LoneBucket(m))
    ensures var sends := BothSends(script, style, m, a, b, |log|);
      AfterBuckets(script, style, [a, b], [LoneBucket(m)], Progress(map[m.fingerprint := m], false, log))
        == Progress(map[m.fingerprint := Both(script, style, m, a, b, |log|)],
                    sends[0].outcome.Failed? || sends[1].outcome.Failed?, log + sends)
  {
    var bucket, sends := LoneBucket(m), BothSends(script, style, m, a, b, |log|);
    LoneSends(script, style, m, [a, b], log);
    CallsOfTwo(script, style, bucket, a, b, |log|);
    KeptOfTwo(bucket, sends[0], sends[1]);
  }

  lemma LoneFlush(cfg: Config, c: Cell, info: GroupInfo, m: GroupMember, a: string, b: string, now: int)
    requires Lone(c, info, m) && ChannelList(info.channel) == [a, b] && Due(c.row.value, now)
    ensures var f := Flush(now, now, [LoneBucket(m)]);
      var sends := BothSends(cfg.script, GroupStyle(info.team, info.notificationOnly), m, a, b, |c.log|);
      var changed, next := BucketChanged(LoneBucket(m)), Step(cfg, c, f);
      && Enabled(cfg, c, f)
      && Lone(next, info, if changed then Both(cfg.script, GroupStyle(info.team, info.notificationOnly), m, a, b, |c.log|) else m)
      && next.log == c.log + (if changed then sends else [])
      && next.row.value.dirty == (changed && (sends[0].outcome.Failed? || sends[1].outcome.Failed?))
  {
    LoneBucketing(m, cfg.threshold);
    var style := GroupStyle(info.team, info.notificationOnly);
    OneBucket(cfg.script, style, [a, b], LoneBucket(m), Progress(c.row.value.members, false, c.log));
    if BucketChanged(LoneBucket(m)) {
      LoneDelivery(cfg.script, style, m, a, b, c.log);
    }
  }

  /** A webhook, and the flush it leads to. */
  function Round(info: GroupInfo, e: GroupMember, m: GroupMember, debounce: int, now: int): seq<Event> {
    [Upsert(info, e, now), Flush(now + debounce, now + debounce, [LoneBucket(m)])]
  }

  /** The group as a round leaves it. */
  function AfterRound(cfg: Config, f: Flap, m: GroupMember, n: nat): GroupMember {
    if BucketChanged(LoneBucket(m)) then Both(cfg.script, f.Style(), m, f.a, f.b, n) else m
  }

  lemma RoundStarts(cfg: Config, info: GroupInfo, c: Cell, m: GroupMember, e: GroupMember, now: int) returns (next: Cell)
    requires (c == EMPTY || Lone(c, info, m)) && IsEvent(e) && e.fingerprint == m.fingerprint
    ensures next == Step(cfg, c, Upsert(info, e, now)) && Enabled(cfg, c, Upsert(info, e, now))
    ensures Lone(next, info, if c == EMPTY then e else Merge(m, e)) && next.log == c.log && Due(next.row.value, now + cfg.debounce)
  {
    next := Step(cfg, c, Upsert(info, e, now));
    if c != EMPTY { LoneUpsert(cfg, c, info, m, e, now); }
  }

  lemma RoundRuns(cfg: Config, f: Flap, c: Cell, m: GroupMember, e: GroupMember, now: int)
    requires c == EMPTY || Lone(c, f.info, m)
    requires IsEvent(e) && e.fingerprint == m.fingerprint && ChannelList(f.info.channel) == [f.a, f.b]
    ensures var before := if c == EMPTY then e else Merge(m, e);
      var tr := Round(f.info, e, before, cfg.debounce, now);
      var after, sends := Run(cfg, c, tr), BothSends(cfg.script, f.Style(), before, f.a, f.b, |c.log|);
      && Valid(cfg, c, tr) && Lone(after, f.info, AfterRound(cfg, f, before, |c.log|))
      && (if BucketChanged(LoneBucket(before)) then
            after.log == c.log + sends && after.row.value.dirty == (sends[0].outcome.Failed? || sends[1].outcome.Failed?)
          else after.log == c.log && !after.row.value.dirty)
  {
    var before := if c == EMPTY then e else Merge(m, e);
    var tr := Round(f.info, e, before, cfg.debounce, now);
    TwoSteps(cfg, c, tr[0], tr[1]);
    var d := RoundStarts(cfg, f.info, c, m, e, now);
    LoneFlush(cfg, d, f.info, before, f.a, f.b, now + cfg.debounce);
  }

  /** A lone alert of a two-channel rule as it is shown firing, reported
      resolved, half shown as such, and then reported once more. */
  datatype Flap = Flap(info: GroupInfo, firing: GroupMember, last: GroupMember, a: string, b: string, script: Script) {
    function Style(): GroupStyle { GroupStyle(info.team, info.notificationOnly) }
    function Resolved(): GroupMember { firing.(status := "resolved") }
    function Shown(): GroupMember { Both(script, Style(), firing, a, b, 0) }
    function Over(): GroupMember { Merge(Shown(), Resolved()) }
    function HalfShown(): GroupMember { Both(script, Style(), Over(), a, b, 2) }
    function Back(): GroupMember { Merge(HalfShown(), last) }
    function First(): NotifiedTarget requires script(0).Accepted? { MadeTarget(a, script(0)) }

    function Trace(debounce: int, t1: int, t2: int, t3: int): seq<Event> {
      Round(info, firing, firing, debounce, t1) + Round(info, Resolved(), Over(), debounce, t2)
      + Round(info, last, Back(), debounce, t3)
    }

    /** Slack accepts everything but the first update of the second channel. */
    ghost predicate Unlucky() {
      && ChannelList(info.channel) == [a, b] && a != b && !info.notificationOnly
      && IsEvent(firing) && firing.status == "firing" && IsEvent(last) && last.fingerprint == firing.fingerprint
      && script(0).Accepted? && script(1).Accepted? && script(2).Accepted? && script(3).Failed?
      && script(4).Accepted? && script(5).Accepted?
    }
  }

  lemma FirstShown(f: Flap)
    requires f.Unlucky()
    ensures f.Shown().notifiedTargets == [f.First(), MadeTarget(f.b, f.script(1))]
    ensures f.Shown() == f.firing.(notifiedTargets := f.Shown().notifiedTargets, notifiedStatus := "firing")
  {
    assert Existing([]) == map[];
  }

  lemma ExistingOfTwo(t: NotifiedTarget, u: NotifiedTarget)
    requires t.channel != u.channel
    ensures Existing([t, u]) == map[t.channel := t, u.channel := u]
  {
    assert Init([t, u]) == [t] && Init([t]) == [];
    assert Existing([t]) == map[][t.channel := t];
  }

  lemma ThenHalfShown(f: Flap)
    requires f.Unlucky()
    ensures f.Over().notifiedTargets == f.Shown().notifiedTargets && f.Over().notifiedStatus == "firing" && f.Over().status == "resolved"
    ensures f.HalfShown() == f.Over()
    ensures SendFor(f.script, f.Style(), LoneBucket(f.Over()), f.a, 2)
      == Send(f.a, Update(ApiChannel(f.First()), f.First().ts), f.Style(), [f.Over()], f.script(2))
  {
    FirstShown(f);
    ExistingOfTwo(f.First(), MadeTarget(f.b, f.script(1)));
  }

  lemma BackFacts(f: Flap)
    requires f.Unlucky()
    ensures f.Back().status == f.last.status && f.Back().notifiedStatus == "firing"
    ensures f.Back().notifiedTargets == [f.First(), MadeTarget(f.b, f.script(1))]
    ensures BucketChanged(LoneBucket(f.Back())) <==> f.last.status != "firing"
    ensures BothSends(f.script, f.Style(), f.Back(), f.a, f.b, 4) ==
      [Send(f.a, Update(ApiChannel(f.First()), f.First().ts), f.Style(), [f.Back()], f.script(4)),
       Send(f.b, Update(ApiChannel(MadeTarget(f.b, f.script(1))), f.script(1).ts), f.Style(), [f.Back()], f.script(5))]
  {
    FirstShown(f);
    ThenHalfShown(f);
    ExistingOfTwo(f.First(), MadeTarget(f.b, f.script(1)));
    assert f.Back() in LoneBucket(f.Back()).members;
  }

  /** One of two updates is refused, and the alert is reported once more before
      the retry, which Slack would accept.  The row ends clean and no worker
      will touch it; the channel whose update went through agrees with it if
      and only if the status did not go back to what was shown before. */
  lemma FlapLeavesStaleMessage(cfg: Config, f: Flap, t1: int, t2: int, t3: int)
    requires f.Unlucky() && cfg.script == f.script
    ensures var tr := f.Trace(cfg.debounce, t1, t2, t3); var c := Run(cfg, EMPTY, tr);
      && Valid(cfg, EMPTY, tr) && Lone(c, f.info, AfterRound(cfg, f, f.Back(), 4)) && !c.row.value.dirty
      && AfterRound(cfg, f, f.Back(), 4).status == f.last.status
      && Shown(c.log, AddressOf(f.First())).Some?
      && var s := Shown(c.log, AddressOf(f.First())).value;
         (HeaderOf(s.style, s.members).resolvedMark == (f.last.status == "resolved")) <==> f.last.status != "firing"
  {
    FirstShown(f);
    ThenHalfShown(f);
    BackFacts(f);
    var c1, c2, c3 := FlapRuns(cfg, f, t1, t2, t3);
    if f.last.status == "firing" {
      StaleShown(f, c1.log);
    } else {
      HealedShown(f, c2.log);
    }
  }

  lemma FlapRuns(cfg: Config, f: Flap, t1: int, t2: int, t3: int) returns (c1: Cell, c2: Cell, c3: Cell)
    requires f.Unlucky() && cfg.script == f.script
    ensures Valid(cfg, EMPTY, f.Trace(cfg.debounce, t1, t2, t3)) && c3 == Run(cfg, EMPTY, f.Trace(cfg.debounce, t1, t2, t3))
    ensures Lone(c3, f.info, AfterRound(cfg, f, f.Back(), 4)) && !c3.row.value.dirty
    ensures c2.log == c1.log + BothSends(f.script, f.Style(), f.Over(), f.a, f.b, 2)
    ensures c3.log == c2.log + if f.last.status == "firing" then [] else BothSends(f.script, f.Style(), f.Back(), f.a, f.b, 4)
  {
    FirstShown(f);
    ThenHalfShown(f);
    BackFacts(f);
    var r1, r2, r3 := Round(f.info, f.firing, f.firing, cfg.debounce, t1), Round(f.info, f.Resolved(), f.Over(), cfg.debounce, t2),
      Round(f.info, f.last, f.Back(), cfg.debounce, t3);
    RoundRuns(cfg, f, EMPTY, f.firing, f.firing, t1);
    c1 := Run(cfg, EMPTY, r1);
    RoundRuns(cfg, f, c1, f.Shown(), f.Resolved(), t2);
    c2 := Run(cfg, c1, r2);
    RoundRuns(cfg, f, c2, f.HalfShown(), f.last, t3);
    c3 := Run(cfg, c2, r3);
    RunAppend(cfg, EMPTY, r1 + r2, r3);
    RunAppend(cfg, EMPTY, r1, r2);
  }

  lemma ShownOfTwo(log: seq<Send>, s: Send, r: Send, a: Address)
    requires SentTo(s) == Some(a) && s.outcome.Accepted?
    ensures Shown(log + [s, r], a) == Some(if SentTo(r) == Some(a) && r.outcome.Accepted? then r else s)
  {
    assert Init(log + [s, r]) == log + [s] && Last(log + [s, r]) == r;
    assert Last(log + [s]) == s;
  }

  lemma HealedShown(f: Flap, log: seq<Send>)
    requires f.Unlucky()
    ensures var shown := Shown(log + BothSends(f.script, f.Style(), f.Back(), f.a, f.b, 4), AddressOf(f.First()));
      shown.Some? && HeaderOf(shown.value.style, shown.value.members).resolvedMark == (f.last.status == "resolved")
  {
    BackFacts(f);
    var sends := BothSends(f.script, f.Style(), f.Back(), f.a, f.b, 4);
    assert sends == [sends[0], sends[1]];
    ShownOfTwo(log, sends[0], sends[1], AddressOf(f.First()));
  }

  lemma StaleShown(f: Flap, log: seq<Send>)
    requires f.Unlucky()
    ensures var sends := BothSends(f.script, f.Style(), f.Over(), f.a, f.b, 2);
      var shown := Shown(log + sends, AddressOf(f.First()));
      shown == Some(sends[0]) && HeaderOf(sends[0].style, sends[0].members).resolvedMark
  {
    ThenHalfShown(f);
    var sends := BothSends(f.script, f.Style(), f.Over(), f.a, f.b, 2);
    assert sends == [sends[0], sends[1]];
    ShownOfTwo(log, sends[0], sends[1], AddressOf(f.First()));
  }

  // -------------------------------------------------------------- the crash

  predicate ClaimsAndCalls(tr: seq<Event>, id: nat) {
    |tr| == 2 && tr[0].Claim? && tr[0].id == id && tr[1] == Work(id)
  }

  lemma FirstCall(cfg: Config, c: Cell, info: GroupInfo, m: GroupMember, id: nat, now: int) returns (tr: seq<Event>, after: Cell)
    requires OfOne(c, info, m) && id !in c.open && Due(c.row.value, now) && ChannelList(info.channel) != []
    requires BucketChanged(LoneBucket(m))
    ensures ClaimsAndCalls(tr, id) && Valid(cfg, c, tr) && after == Run(cfg, c, tr)
    ensures after.log == c.log + [LoneCall(cfg, info, m, ChannelList(info.channel)[0], |c.log|)]
    ensures after.open.Keys == c.open.Keys + {id} && after.row == Some(Claimed(c.row.value, now, cfg.lease))
  {
    LoneBucketing(m, cfg.threshold);
    var claim := Claim(id, now, [LoneBucket(m)]);
    TwoSteps(cfg, c, claim, Work(id));
    var d := Step(cfg, c, claim);
    assert d.open == c.open[id := Opened(c.row.value, [LoneBucket(m)])];
    tr, after := [claim, Work(id)], Step(cfg, d, Work(id));
  }

  function LoneCall(cfg: Config, info: GroupInfo, m: GroupMember, channel: string, n: nat): Send {
    SendFor(cfg.script, GroupStyle(info.team, info.notificationOnly), LoneBucket(m), channel, n)
  }

  lemma FirstPost(cfg: Config, c: Cell, info: GroupInfo, m: GroupMember, id: nat, now: int) returns (tr: seq<Event>, after: Cell)
    requires OfOne(c, info, m) && id !in c.open && Due(c.row.value, now) && ChannelList(info.channel) != []
    requires m.notifiedTargets == [] && cfg.script(|c.log|).Accepted?
    ensures ClaimsAndCalls(tr, id) && Valid(cfg, c, tr) && after == Run(cfg, c, tr)
    ensures |after.log| == |c.log| + 1 && c.log <= after.log && PostedFor(Last(after.log), m, ChannelList(info.channel)[0])
    ensures after.open.Keys == c.open.Keys + {id} && after.row == Some(Claimed(c.row.value, now, cfg.lease))
  {
    tr, after := FirstCall(cfg, c, info, m, id, now);
    assert m in LoneBucket(m).members;
  }

  /** An accepted post of the alert to the channel. */
  predicate PostedFor(s: Send, m: GroupMember, channel: string) {
    PostedOk(s) && s.channel == channel && m.fingerprint in Fps(s.members)
  }

  /** After the crash only the webhook is left of the alert. */
  lemma CrashForgets(cfg: Config, c: Cell, info: GroupInfo, m: GroupMember, e: GroupMember, id: nat, later: int)
    returns (after: Cell)
    requires OfOne(c, info, m) && c.open.Keys == {id}
    requires IsEvent(e) && e.fingerprint == m.fingerprint
    ensures Valid(cfg, c, [Crash(id), Upsert(info, e, later)]) && after == Run(cfg, c, [Crash(id), Upsert(info, e, later)])
    ensures Lone(after, info, Merge(m, e)) && after.log == c.log && Due(after.row.value, later + cfg.debounce)
  {
    TwoSteps(cfg, c, Crash(id), Upsert(info, e, later));
    var crashed := Step(cfg, c, Crash(id));
    assert crashed.open == map[];
    LoneUpsert(cfg, crashed, info, m, e, later);
    after := Step(cfg, crashed, Upsert(info, e, later));
  }

  /** A worker that crashes between a post and its save leaves no trace of the
      post: the next webhook brings the alert up again, and it is posted to
      the same channel a second time. */
  lemma CrashPostsTwice(cfg: Config, c: Cell, info: GroupInfo, m: GroupMember, e: GroupMember, id: nat, now: int, later: int)
    returns (one: seq<Event>, three: seq<Event>)
    requires Lone(c, info, m) && Due(c.row.value, now) && ChannelList(info.channel) != []
    requires m.notifiedTargets == [] && IsEvent(e) && e.fingerprint == m.fingerprint
    requires cfg.script(|c.log|).Accepted? && cfg.script(|c.log| + 1).Accepted?
    ensures ClaimsAndCalls(one, id) && ClaimsAndCalls(three, id)
    ensures var tr := one + [Crash(id), Upsert(info, e, later)] + three;
      Valid(cfg, c, tr) && PostedTwice(c.log, Run(cfg, c, tr).log, m, ChannelList(info.channel)[0])
  {
    ghost var c1, c2, c3;
    one, c1 := FirstPost(cfg, c, info, m, id, now);
    c2 := CrashForgets(cfg, c1, info, m, e, id, later);
    three, c3 := FirstPost(cfg, c2, info, Merge(m, e), id, later + cfg.debounce);
    PostedAgain(cfg, c, one, c1, [Crash(id), Upsert(info, e, later)], c2, three, c3, m, Merge(m, e), ChannelList(info.channel)[0]);
  }

  /** So does a second worker that claims the group because a webhook landed
      while the first was at work. */
  lemma TwoHoldersPostTwice(cfg: Config, c: Cell, info: GroupInfo, m: GroupMember, e: GroupMember, now: int, later: int)
    returns (one: seq<Event>, three: seq<Event>)
    requires Lone(c, info, m) && Due(c.row.value, now) && ChannelList(info.channel) != []
    requires m.notifiedTargets == [] && IsEvent(e) && e.fingerprint == m.fingerprint
    requires cfg.script(|c.log|).Accepted? && cfg.script(|c.log| + 1).Accepted?
    ensures ClaimsAndCalls(one, 0) && ClaimsAndCalls(three, 1)
    ensures var tr := one + [Upsert(info, e, later)] + three;
      Valid(cfg, c, tr) && PostedTwice(c.log, Run(cfg, c, tr).log, m, ChannelList(info.channel)[0])
  {
    ghost var c1, c3;
    one, c1 := FirstPost(cfg, c, info, m, 0, now);
    LoneUpsert(cfg, c1, info, m, e, later);
    OneStep(cfg, c1, Upsert(info, e, later));
    var c2 := Step(cfg, c1, Upsert(info, e, later));
    three, c3 := FirstPost(cfg, c2, info, Merge(m, e), 1, later + cfg.debounce);
    PostedAgain(cfg, c, one, c1, [Upsert(info, e, later)], c2, three, c3, m, Merge(m, e), ChannelList(info.channel)[0]);
  }

  predicate PostedTwice(before: seq<Send>, log: seq<Send>, m: GroupMember, channel: string) {
    |log| == |before| + 2 && PostedFor(log[|before|], m, channel) && PostedFor(log[|before| + 1], m, channel)
  }

  lemma ThreeRuns(cfg: Config, c: Cell, one: seq<Event>, c1: Cell, two: seq<Event>, c2: Cell, three: seq<Event>, c3: Cell)
    requires Valid(cfg, c, one) && c1 == Run(cfg, c, one)
    requires Valid(cfg, c1, two) && c2 == Run(cfg, c1, two)
    requires Valid(cfg, c2, three) && c3 == Run(cfg, c2, three)
    ensures Valid(cfg, c, one + two + three) && Run(cfg, c, one + two + three) == c3
  {
    RunAppend(cfg, c, one + two, three);
    RunAppend(cfg, c, one, two);
  }

  lemma PostedAgain(cfg: Config, c: Cell, one: seq<Event>, c1: Cell, two: seq<Event>, c2: Cell, three: seq<Event>, c3: Cell,
                    m: GroupMember, again: GroupMember, channel: string)
    requires Valid(cfg, c, one) && c1 == Run(cfg, c, one)
    requires Valid(cfg, c1, two) && c2 == Run(cfg, c1, two)
    requires Valid(cfg, c2, three) && c3 == Run(cfg, c2, three)
    requires |c1.log| == |c.log| + 1 && c2.log == c1.log && |c3.log| == |c2.log| + 1 && c2.log <= c3.log
    requires again.fingerprint == m.fingerprint && PostedFor(Last(c1.log), m, channel) && PostedFor(Last(c3.log), again, channel)
    ensures Valid(cfg, c, one + two + three) && PostedTwice(c.log, Run(cfg, c, one + two + three).log, m, channel)
  {
    ThreeRuns(cfg, c, one, c1, two, c2, three, c3);
    assert c3.log[|c.log|] == c1.log[|c.log|];
  }

  // ------------------------------------------- stale after a crash

  lemma LoneQuiet(cfg: Config, c: Cell, info: GroupInfo, m: GroupMember, now: int)
    requires Lone(c, info, m) && Due(c.row.value, now) && !BucketChanged(LoneBucket(m))
    ensures var f := Flush(now, now, [LoneBucket(m)]); var next := Step(cfg, c, f);
      Enabled(cfg, c, f) && Lone(next, info, m) && next.log == c.log && !next.row.value.dirty
  {
    LoneBucketing(m, cfg.threshold);
    OneBucket(cfg.script, GroupStyle(info.team, info.notificationOnly), ChannelList(info.channel), LoneBucket(m),
      Progress(c.row.value.members, false, c.log));
  }

  /** An alert shown as firing in the one channel of its rule. */
  predicate ShownFiring(info: GroupInfo, m: GroupMember, t: NotifiedTarget) {
    && ChannelList(info.channel) == [t.channel] && !info.notificationOnly
    && m.notifiedTargets == [t] && m.notifiedStatus == "firing"
  }

  predicate Reports(e: GroupMember, m: GroupMember, status: string) {
    IsEvent(e) && e.fingerprint == m.fingerprint && e.status == status
  }

  lemma ResolvedCall(cfg: Config, info: GroupInfo, m: GroupMember, t: NotifiedTarget, r: GroupMember, log: seq<Send>)
    requires ShownFiring(info, m, t) && Reports(r, m, "resolved") && cfg.script(|log|).Accepted?
    ensures BucketChanged(LoneBucket(Merge(m, r)))
    ensures var s := LoneCall(cfg, info, Merge(m, r), t.channel, |log|);
      s.op.Update? && s.outcome.Accepted? && Shown(log + [s], AddressOf(t)) == Some(s) && HeaderOf(s.style, s.members).resolvedMark
  {
    assert Merge(m, r) in LoneBucket(Merge(m, r)).members;
    assert Init([t]) == [] && Existing([t]) == map[][t.channel := t];
    var s := LoneCall(cfg, info, Merge(m, r), t.channel, |log|);
    assert Init(log + [s]) == log && Last(log + [s]) == s;
  }

  /** The alert is reported resolved, its update is accepted, the worker
      crashes, and the alert is reported firing again.  Slack refused nothing
      and posted nothing; the next flush finds nothing changed and leaves a
      clean row, while the channel shows the alert as resolved. */
  lemma CrashLeavesStaleMessage(cfg: Config, c: Cell, info: GroupInfo, m: GroupMember, t: NotifiedTarget, r: GroupMember, f: GroupMember,
                                t1: int, t2: int) returns (work: seq<Event>, flush: Event)
    requires Lone(c, info, m) && ShownFiring(info, m, t)
    requires Reports(r, m, "resolved") && Reports(f, m, "firing") && cfg.script(|c.log|).Accepted?
    ensures ClaimsAndCalls(work, 0) && flush.Flush?
    ensures var tr := [Upsert(info, r, t1)] + work + [Crash(0), Upsert(info, f, t2)]; var crashed := Run(cfg, c, tr);
      && Valid(cfg, c, tr) && Enabled(cfg, crashed, flush)
      && var done := Step(cfg, crashed, flush);
         && |done.log| == |c.log| + 1 && Last(done.log).op.Update? && Last(done.log).outcome.Accepted?
         && Lone(done, info, Merge(Merge(m, r), f)) && !done.row.value.dirty && Merge(Merge(m, r), f).status == "firing"
         && Shown(done.log, AddressOf(t)) == Some(Last(done.log))
         && HeaderOf(Last(done.log).style, Last(done.log).members).resolvedMark
  {
    var up := Upsert(info, r, t1);
    LoneUpsert(cfg, c, info, m, r, t1);
    OneStep(cfg, c, up);
    var c1 := Step(cfg, c, up);
    ResolvedCall(cfg, info, m, t, r, c.log);
    ghost var c2;
    work, c2 := FirstCall(cfg, c1, info, Merge(m, r), 0, t1 + cfg.debounce);
    var c3 := CrashForgets(cfg, c2, info, Merge(m, r), f, 0, t2);
    flush := Flush(t2 + cfg.debounce, t2 + cfg.debounce, [LoneBucket(Merge(Merge(m, r), f))]);
    LoneQuiet(cfg, c3, info, Merge(Merge(m, r), f), t2 + cfg.debounce);
    ThreeRuns(cfg, c, [up], c1, work, c2, [Crash(0), Upsert(info, f, t2)], c3);
  }

  // ------------------------------------------------------------ the retry

  lemma {:induction false} ExistingKeys(ts: seq<NotifiedTarget>)
    ensures forall ch :: ch in Existing(ts) <==> ch in Chans(ts)
  {
    if ts != [] {
      ExistingKeys(Init(ts));
      assert Chans(ts) == Chans(Init(ts)) + [Last(ts).channel];
    }
  }

  /** A bucket that is sent at all is sent to every channel of the rule: an
      update where it has a message, a post where it has none.  So a retry is
      confined to the channels that are missing if and only if all are. */
  lemma RetryCallsEveryChannel(script: Script, style: GroupStyle, channels: seq<string>, b: Bucket, p: Progress)
    requires BucketChanged(b) && forall t | t in b.targets :: t.channel in channels
    ensures var sends := Calls(script, style, b, channels, |p.log|);
      && AfterBucket(script, style, channels, b, p).log == p.log + sends
      && (forall i | 0 <= i < |channels| ::
            sends[i].channel == channels[i] && sends[i].members == b.members && (sends[i].op.Update? <==> channels[i] in Chans(b.targets)))
      && ((forall s | s in sends :: s.channel !in Chans(b.targets)) <==> b.targets == [])
  {
    var sends := Calls(script, style, b, channels, |p.log|);
    ExistingKeys(b.targets);
    if b.targets != [] { FirstIsCalled(b, sends, channels); }
  }

  lemma FirstIsCalled(b: Bucket, sends: seq<Send>, channels: seq<string>)
    requires b.targets != [] && b.targets[0].channel in channels && |sends| == |channels|
    requires forall i | 0 <= i < |channels| :: sends[i].channel == channels[i]
    ensures exists s :: s in sends && s.channel in Chans(b.targets)
  {
    var k :| 0 <= k < |channels| && channels[k] == b.targets[0].channel;
    assert sends[k] in sends && Chans(b.targets)[0] == b.targets[0].channel;
  }

  /** An instance: of two first posts the second is refused.  Whatever is
      reported next, the retry posts to the second channel and also rewrites the
      first, with the status reported. */
  lemma RetryUpdatesTheOther(script: Script, style: GroupStyle, m: GroupMember, e: GroupMember, a: string, b: string, n: nat, later: nat)
    requires m.notifiedTargets == [] && m.notifiedStatus == "" && a != b && script(n).Accepted? && script(n + 1).Failed?
    requires IsEvent(e) && e.status != ""
    ensures var again := Merge(Both(script, style, m, a, b, n), e); var t := MadeTarget(a, script(n));
      && BucketChanged(LoneBucket(again)) && again.status == e.status
      && BothSends(script, style, again, a, b, later) ==
           [Send(a, Update(ApiChannel(t), t.ts), style, [again], script(later)), Send(b, Post, style, [again], script(later + 1))]
  {
    var again, t := Merge(Both(script, style, m, a, b, n), e), MadeTarget(a, script(n));
    assert Existing([]) == map[];
    assert again.notifiedTargets == [t];
    assert Init([t]) == [] && Existing([t]) == map[][t.channel := t];
    assert again in LoneBucket(again).members;
  }

  // ------------------------------------------------- what a crash hides

  /** The alert is shown firing and reported resolved; the worker that claims
      it crashes before any call.  The row is clean, nobody holds it, nothing
      was refused or rewritten, and the channel still shows it firing. */
  lemma CrashHidesReport(cfg: Config, c: Cell, info: GroupInfo, m: GroupMember, t: NotifiedTarget, r: GroupMember, t1: int)
    returns (claim: Event)
    requires Lone(c, info, m) && ShownFiring(info, m, t) && Current(c.row.value.members, c.log, m.fingerprint, t)
    requires m.status == "firing" && Reports(r, m, "resolved")
    ensures claim.Claim?
    ensures var tr := [Upsert(info, r, t1)] + [claim, Crash(claim.id)]; var done := Run(cfg, c, tr);
      && Valid(cfg, c, tr) && Lone(done, info, Merge(m, r)) && !done.row.value.dirty && done.log == c.log
      && !Current(done.row.value.members, done.log, m.fingerprint, t)
  {
    var up := Upsert(info, r, t1);
    LoneUpsert(cfg, c, info, m, r, t1);
    OneStep(cfg, c, up);
    var c1 := Step(cfg, c, up);
    LoneBucketing(Merge(m, r), cfg.threshold);
    claim := Claim(0, t1 + cfg.debounce, [LoneBucket(Merge(m, r))]);
    TwoSteps(cfg, c1, claim, Crash(0));
    RunAppend(cfg, c, [up], [claim, Crash(0)]);
    var done := Step(cfg, Step(cfg, c1, claim), Crash(0));
    assert done.open == map[];
    HiddenIsStale(c.row.value.members, done.row.value.members, c.log, m, r, t);
  }

  lemma HiddenIsStale(members: Members, next: Members, log: seq<Send>, m: GroupMember, r: GroupMember, t: NotifiedTarget)
    requires members == map[m.fingerprint := m] && next == map[m.fingerprint := Merge(m, r)]
    requires Current(members, log, m.fingerprint, t) && IsEvent(r) && r.fingerprint == m.fingerprint && r.status != m.status
    ensures !Current(next, log, m.fingerprint, t)
  {
    var s := Shown(log, AddressOf(t)).value;
    assert m.fingerprint in Sharing(members, m.notifiedTargets) && m.fingerprint in Fps(s.members);
    var x :| x in s.members && x.fingerprint == m.fingerprint;
  }

  // ------------------------------------------------- the lost webhook

  /** An alert shown firing is due again after a repeated webhook; while a worker
      looks at it and finds nothing changed, it is reported resolved.  The save
      leaves a clean row that says firing. */
  lemma WebhookIsLost(cfg: Config, c: Cell, info: GroupInfo, m: GroupMember, r: GroupMember, now: int, later: int, savedAt: int)
    requires Lone(c, info, m) && Due(c.row.value, now) && m.notifiedTargets != [] && m.notifiedStatus == m.status == "firing"
    requires Reports(r, m, "resolved")
    ensures var tr := [Claim(0, now, [LoneBucket(m)]), Upsert(info, r, later)] + [Work(0), Save(0, savedAt)];
      Valid(cfg, c, tr) && Lone(Run(cfg, c, tr), info, m) && !Run(cfg, c, tr).row.value.dirty
  {
    LoneBucketing(m, cfg.threshold);
    var claim, up := Claim(0, now, [LoneBucket(m)]), Upsert(info, r, later);
    TwoSteps(cfg, c, claim, up);
    var held := Step(cfg, Step(cfg, c, claim), up);
    assert held.open == map[0 := Opened(c.row.value, [LoneBucket(m)])];
    TwoSteps(cfg, held, Work(0), Save(0, savedAt));
    RunAppend(cfg, c, [claim, up], [Work(0), Save(0, savedAt)]);
    var worked := Step(cfg, held, Work(0));
    assert worked.open == map[0 := held.open[0].(next := 1)];
    assert worked.open - {0} == map[];
  }

  // -------------------------------------------- a cleanup under way

  lemma NotPostedSince(log: seq<Send>, s: Send, m: GroupMember)
    requires s.op.Update? && m in s.members
    ensures !UpdatesPosted(log + [s], |log|)
  {
    assert m.fingerprint in Fps(s.members) && (log + [s])[|log|] == s;
    assert !PostedBefore(log + [s], |log|, |log|, m.fingerprint);
  }

  lemma UpdatesOneTarget(cfg: Config, info: GroupInfo, m: GroupMember, t: NotifiedTarget, n: nat)
    requires m.notifiedTargets == [t]
    ensures LoneCall(cfg, info, m, t.channel, n).op.Update? && m in LoneCall(cfg, info, m, t.channel, n).members
  {
    assert Init([t]) == [] && Existing([t]) == map[][t.channel := t];
  }

  lemma CleanedUnderWay(cfg: Config, c: Cell, info: GroupInfo, m: GroupMember, now: int, cleanedAt: int) returns (cleaned: Cell)
    requires Lone(c, info, m) && Due(c.row.value, now) && m.status == "resolved" && c.row.value.updatedAt < cleanedAt - cfg.olderThan
    ensures var tr := [Claim(0, now, [LoneBucket(m)]), Cleanup(cleanedAt)]; Valid(cfg, c, tr) && cleaned == Run(cfg, c, tr)
    ensures cleaned.row == None && cleaned.open == map[0 := Opened(c.row.value, [LoneBucket(m)])] && cleaned.log == c.log
  {
    LoneBucketing(m, cfg.threshold);
    var claim := Claim(0, now, [LoneBucket(m)]);
    TwoSteps(cfg, c, claim, Cleanup(cleanedAt));
    cleaned := Step(cfg, Step(cfg, c, claim), Cleanup(cleanedAt));
  }

  lemma CalledAfterAll(cfg: Config, c: Cell, r: Row, info: GroupInfo, m: GroupMember, e: GroupMember, later: int) returns (done: Cell)
    requires c.row == None && c.open == map[0 := Opened(r, [LoneBucket(m)])] && IsEvent(e)
    requires r.team == info.team && r.notificationOnly == info.notificationOnly && r.channel == info.channel
    requires ChannelList(info.channel) != [] && BucketChanged(LoneBucket(m))
    ensures var tr := [Upsert(info, e, later), Work(0)]; Valid(cfg, c, tr) && done == Run(cfg, c, tr)
    ensures done.row.Some? && done.since == |c.log| && done.log == c.log + [LoneCall(cfg, info, m, ChannelList(info.channel)[0], |c.log|)]
  {
    var up := Upsert(info, e, later);
    TwoSteps(cfg, c, up, Work(0));
    done := Step(cfg, Step(cfg, c, up), Work(0));
  }

  /** A fully resolved group whose last update is due is claimed, and cleaned up
      before the call; a webhook inserts its row anew.  The call then updates a
      message that was posted before the row was inserted. */
  lemma CleanupUnderWay(cfg: Config, c: Cell, info: GroupInfo, m: GroupMember, t: NotifiedTarget, e: GroupMember,
                        now: int, cleanedAt: int, later: int) returns (done: Cell)
    requires Lone(c, info, m) && Due(c.row.value, now) && ChannelList(info.channel) == [t.channel] && m.notifiedTargets == [t]
    requires m.status == "resolved" != m.notifiedStatus && c.row.value.updatedAt < cleanedAt - cfg.olderThan && IsEvent(e)
    ensures var tr := [Claim(0, now, [LoneBucket(m)]), Cleanup(cleanedAt)] + [Upsert(info, e, later), Work(0)];
      Valid(cfg, c, tr) && done == Run(cfg, c, tr)
    ensures done.row.Some? && done.since == |c.log| && !UpdatesPosted(done.log, done.since)
  {
    assert m in LoneBucket(m).members;
    var cleaned := CleanedUnderWay(cfg, c, info, m, now, cleanedAt);
    done := CalledAfterAll(cfg, cleaned, c.row.value, info, m, e, later);
    RunAppend(cfg, c, [Claim(0, now, [LoneBucket(m)]), Cleanup(cleanedAt)], [Upsert(info, e, later), Work(0)]);
    UpdatesOneTarget(cfg, info, m, t, |c.log|);
    NotPostedSince(c.log, LoneCall(cfg, info, m, t.channel, |c.log|), m);
  }
}
