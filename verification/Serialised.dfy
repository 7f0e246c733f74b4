/** What holds in every reachable state of a serialised run, also in the
    middle of a flush and whatever Slack refuses. */
module Serialised {
  import opened Prelude
  import opened Members
  import opened Batching
  import opened Channels
  import opened Message
  import opened Slack
  import opened Flush
  import opened Groups
  import opened Protocol
  import opened Ledger
  import opened Delivery

  /** The alert's messages exist and show its current status. */
  predicate CaughtUp(m: GroupMember) {
    m.notifiedTargets != [] && m.notifiedStatus == m.status
  }

  ghost predicate AllCaughtUp(members: Members) {
    forall fp | fp in members :: CaughtUp(members[fp])
  }

  ghost predicate Steady(c: Cell) {
    c.row.Some? ==>
      && Trackable(c.row.value.channel)
      && Book(c.row.value.members, c.log, c.since, ChannelList(c.row.value.channel))
      && (!c.row.value.dirty ==> AllCaughtUp(c.row.value.members))
  }

  /** The log before the calls of the bucket being delivered. */
  function BaseLog(cur: Cursor, log: seq<Send>): seq<Send>
    requires |cur.sends| <= |log|
  {
    log[..|log| - |cur.sends|]
  }

  ghost predicate Ahead(cur: Cursor, fp: string) {
    exists j :: cur.next <= j < |cur.buckets| && fp in Fps(cur.buckets[j].members)
  }

  ghost predicate CallsSoFar(cfg: Config, cur: Cursor, n: nat) {
    cur.sends != [] ==>
      && cur.next < |cur.buckets| && BucketChanged(cur.buckets[cur.next])
      && |cur.sends| <= |ChannelsOf(cur.group)|
      && cur.sends == Calls(cfg.script, StyleOf(cur.group), cur.buckets[cur.next], ChannelsOf(cur.group)[..|cur.sends|], n)
  }

  ghost predicate Midway(cfg: Config, cur: Cursor, log: seq<Send>, since: nat) {
    && Trackable(cur.group.channel)
    && |cur.sends| <= |log|
    && log == BaseLog(cur, log) + cur.sends
    && CallsSoFar(cfg, cur, |BaseLog(cur, log)|)
    && Book(cur.members, BaseLog(cur, log), since, ChannelsOf(cur.group))
    && (forall j | cur.next <= j < |cur.buckets| :: GoodBucket(cur.members, cur.buckets[j]))
    && Disjoint(cur.buckets)
    && (forall fp | fp in cur.members :: Ahead(cur, fp) || cur.failed || CaughtUp(cur.members[fp]))
  }

  /** What the row itself still says while a worker holds the group. */
  ghost predicate RowStands(members: Members, channels: seq<string>) {
    SameOrApart(members) && forall fp | fp in members :: Covered(members[fp], channels)
  }

  ghost predicate Holding(cfg: Config, c: Cell, id: nat) {
    && c.open.Keys == {id} && c.row.Some?
    && c.row.value.channel == c.open[id].group.channel
    && RowStands(c.row.value.members, ChannelsOf(c.open[id].group))
    && Midway(cfg, c.open[id], c.log, c.since)
  }

  ghost predicate SerialInv(cfg: Config, c: Cell, m: Mode) {
    && c.since <= |c.log|
    && OnePost(c.log, c.since) && UpdatesPosted(c.log, c.since)
    && match m
       case Free => c.open == map[] && Steady(c)
       case Held(id) => Holding(cfg, c, id)
       case Bad => false
  }

  // ------------------------------------------------------------- webhooks

  lemma RecordedStands(members: Members, channels: seq<string>, e: GroupMember)
    requires RowStands(members, channels) && IsEvent(e)
    ensures RowStands(Recorded(members, e), channels)
  {
    var next := Recorded(members, e);
    assert Chans([]) == [];
    forall fp | fp in next
      ensures next[fp].notifiedTargets == (if fp in members then members[fp].notifiedTargets else [])
      ensures Covered(next[fp], channels)
    {
      if fp in members { assert Covered(members[fp], channels); }
    }
    forall a, b | a in next && b in next
      ensures next[a].notifiedTargets == next[b].notifiedTargets || Apart(next[a].notifiedTargets, next[b].notifiedTargets)
    {
      if a in members && b in members {
        assert members[a].notifiedTargets == members[b].notifiedTargets
          || Apart(members[a].notifiedTargets, members[b].notifiedTargets);
      }
    }
  }

  lemma RecordedBook(members: Members, log: seq<Send>, since: nat, channels: seq<string>, e: GroupMember)
    requires Book(members, log, since, channels) && IsEvent(e)
    ensures Book(Recorded(members, e), log, since, channels)
  {
    var next := Recorded(members, e);
    RecordedStands(members, channels, e);
    forall fp, t | fp in next && t in next[fp].notifiedTargets ensures Backed(log, since, fp, t) { }
    forall i, fp | since <= i < |log| && PostedOk(log[i]) && fp in Fps(log[i].members)
      ensures fp in next && MadeTarget(log[i].channel, log[i].outcome) in next[fp].notifiedTargets
    { }
  }

  lemma UpsertKeeps(cfg: Config, c: Cell, e: Event)
    requires e.Upsert? && SerialInv(cfg, c, Free) && Enabled(cfg, c, e) && GoodEvent(e)
    ensures SerialInv(cfg, Step(cfg, c, e), Free)
  {
    if c.row.Some? {
      RecordedBook(c.row.value.members, c.log, c.since, ChannelList(c.row.value.channel), e.event);
    } else {
      assert Book(map[], c.log, |c.log|, ChannelList(e.info.channel));
      RecordedBook(map[], c.log, |c.log|, ChannelList(e.info.channel), e.event);
    }
  }

  /** A webhook that lands while a worker holds the group does not reach it. */
  lemma LateUpsertKeeps(cfg: Config, c: Cell, e: Event, id: nat)
    requires e.Upsert? && SerialInv(cfg, c, Held(id)) && Enabled(cfg, c, e)
    ensures SerialInv(cfg, Step(cfg, c, e), Held(id))
  {
    RecordedStands(c.row.value.members, ChannelsOf(c.open[id].group), e.event);
  }

  // --------------------------------------------------------------- claims

  lemma ClaimKeeps(cfg: Config, c: Cell, e: Event)
    requires e.Claim? && SerialInv(cfg, c, Free) && Enabled(cfg, c, e) && SaneSlack(c.log)
    ensures SerialInv(cfg, Step(cfg, c, e), Held(e.id))
  {
    var r := c.row.value;
    var cur := Opened(r, e.buckets);
    assert BaseLog(cur, c.log) == c.log && c.log + [] == c.log;
    forall j | 0 <= j < |e.buckets| ensures GoodBucket(cur.members, e.buckets[j]) {
      assert e.buckets[j] in e.buckets;
      BucketIsGood(r.members, c.log, c.since, ChannelList(r.channel), cfg.threshold, e.buckets[j]);
    }
    forall fp | fp in cur.members ensures Ahead(cur, fp) {
      assert InSome(e.buckets, fp);
    }
  }

  // ---------------------------------------------------------------- calls

  lemma CallsFit(cfg: Config, style: GroupStyle, b: Bucket, some: seq<string>, n: nat)
    ensures FitsCalls(b, Calls(cfg.script, style, b, some, n), some)
  { }

  lemma AheadStays(cur: Cursor, next: Cursor, fp: string)
    requires Ahead(cur, fp) && next.buckets == cur.buckets
    requires next.next == cur.next || (next.next == cur.next + 1 && cur.next < |cur.buckets| && fp !in Fps(cur.buckets[cur.next].members))
    ensures Ahead(next, fp)
  {
    var j :| cur.next <= j < |cur.buckets| && fp in Fps(cur.buckets[j].members);
    assert next.next <= j < |next.buckets| && fp in Fps(next.buckets[j].members);
  }

  lemma SkipKeeps(cfg: Config, cur: Cursor, log: seq<Send>, since: nat)
    requires Midway(cfg, cur, log, since) && !Finished(cur) && !BucketChanged(cur.buckets[cur.next])
    ensures Midway(cfg, Advance(cfg, cur, log).0, log, since)
  {
    var next := Advance(cfg, cur, log).0;
    forall fp | fp in cur.members ensures Ahead(next, fp) || cur.failed || CaughtUp(cur.members[fp]) {
      if fp in Fps(cur.buckets[cur.next].members) {
        InBucket(cur.members, cur.buckets[cur.next], fp);
      } else if Ahead(cur, fp) {
        AheadStays(cur, next, fp);
      }
    }
  }

  lemma CallMade(cfg: Config, cur: Cursor, log: seq<Send>)
    requires |cur.sends| <= |log| && log == BaseLog(cur, log) + cur.sends && CallsSoFar(cfg, cur, |BaseLog(cur, log)|)
    requires !Finished(cur) && BucketChanged(cur.buckets[cur.next])
    requires |cur.sends| < |ChannelsOf(cur.group)|
    ensures var (next, log') := Advance(cfg, cur, log);
      && |next.sends| <= |log'| && BaseLog(next, log') == BaseLog(cur, log) && log' == BaseLog(cur, log) + next.sends
      && next.sends == Calls(cfg.script, StyleOf(cur.group), cur.buckets[cur.next], ChannelsOf(cur.group)[..|next.sends|], |BaseLog(cur, log)|)
  {
    var b, channels, style := cur.buckets[cur.next], ChannelsOf(cur.group), StyleOf(cur.group);
    var base := BaseLog(cur, log);
    CallsGrow(cfg.script, style, b, channels, base, cur.sends);
    SnocSplit(base, cur.sends, SendFor(cfg.script, style, b, channels[|cur.sends|], |log|));
  }

  lemma SnocSplit(base: seq<Send>, sends: seq<Send>, s: Send)
    ensures base + sends + [s] == base + (sends + [s])
    ensures (base + (sends + [s]))[..|base|] == base
  { }

  lemma CallKeeps(cfg: Config, cur: Cursor, log: seq<Send>, since: nat)
    requires Midway(cfg, cur, log, since) && !Finished(cur) && BucketChanged(cur.buckets[cur.next])
    requires |cur.sends| < |ChannelsOf(cur.group)|
    ensures var (next, log') := Advance(cfg, cur, log); Midway(cfg, next, log', since)
  {
    var (next, log') := Advance(cfg, cur, log);
    CallMade(cfg, cur, log);
    forall fp | fp in cur.members ensures Ahead(next, fp) || cur.failed || CaughtUp(cur.members[fp]) {
      if Ahead(cur, fp) { AheadStays(cur, next, fp); }
    }
  }

  lemma OnePostPrefix(log: seq<Send>, base: seq<Send>, since: nat)
    requires base <= log && OnePost(log, since) && UpdatesPosted(log, since)
    ensures OnePost(base, since) && UpdatesPosted(base, since)
  {
    forall j, fp | since <= j < |base| && base[j].op.Update? && fp in Fps(base[j].members)
      ensures PostedBefore(base, since, j, fp)
    {
      assert log[j] == base[j] && PostedBefore(log, since, j, fp);
      var i :| since <= i < j && i < |log| && PostedOk(log[i]) && fp in Fps(log[i].members) && log[i].channel == log[j].channel;
      assert base[i] == log[i];
    }
    forall i, j, fp | since <= i < j < |base| && PostedOk(base[i]) && base[i].channel == base[j].channel
        && fp in Fps(base[i].members) && fp in Fps(base[j].members)
      ensures base[j].op == Update(Resolved(base[i].channel, base[i].outcome.channel), base[i].outcome.ts)
    {
      assert log[i] == base[i] && log[j] == base[j];
    }
  }

  lemma CallPosts(cfg: Config, cur: Cursor, log: seq<Send>, since: nat, sends: seq<Send>)
    requires Midway(cfg, cur, log, since) && !Finished(cur)
    requires OnePost(log, since) && UpdatesPosted(log, since)
    requires |sends| <= |ChannelsOf(cur.group)|
    requires sends == Calls(cfg.script, StyleOf(cur.group), cur.buckets[cur.next], ChannelsOf(cur.group)[..|sends|], |BaseLog(cur, log)|)
    ensures OnePost(BaseLog(cur, log) + sends, since) && UpdatesPosted(BaseLog(cur, log) + sends, since)
  {
    var b, channels, base := cur.buckets[cur.next], ChannelsOf(cur.group), BaseLog(cur, log);
    ChannelListFacts(cur.group.channel);
    OnePostPrefix(log, base, since);
    var some := channels[..|sends|];
    CallsFit(cfg, StyleOf(cur.group), b, some, |base|);
    CallsPostOnce(cur.members, base, since, channels, b, sends, some);
    CallsUpdatePosted(cur.members, base, since, channels, b, sends, some);
  }

  // ----------------------------------------------------------- write-back

  lemma MidwayDelivered(cfg: Config, cur: Cursor, log: seq<Send>, since: nat)
    requires Midway(cfg, cur, log, since) && !Finished(cur) && BucketChanged(cur.buckets[cur.next])
    requires |cur.sends| == |ChannelsOf(cur.group)| && FreshPosts(log)
    ensures Delivered(cur.members, BaseLog(cur, log), since, ChannelsOf(cur.group), cur.buckets[cur.next], cur.sends)
  {
    var channels := ChannelsOf(cur.group);
    ChannelListFacts(cur.group.channel);
    assert channels[..|channels|] == channels;
    CallsFit(cfg, StyleOf(cur.group), cur.buckets[cur.next], channels, |BaseLog(cur, log)|);
  }

  lemma LaterBucketsKeep(cfg: Config, cur: Cursor, log: seq<Send>, since: nat)
    requires Midway(cfg, cur, log, since) && !Finished(cur) && BucketChanged(cur.buckets[cur.next])
    requires Delivered(cur.members, BaseLog(cur, log), since, ChannelsOf(cur.group), cur.buckets[cur.next], cur.sends)
    ensures forall j | cur.next < j < |cur.buckets| ::
      GoodBucket(NextMembers(cur.members, cur.buckets[cur.next], cur.sends), cur.buckets[j])
  {
    forall j | cur.next < j < |cur.buckets|
      ensures GoodBucket(NextMembers(cur.members, cur.buckets[cur.next], cur.sends), cur.buckets[j])
    {
      DeliveredOthers(cur.members, BaseLog(cur, log), since, ChannelsOf(cur.group), cur.buckets[cur.next], cur.sends, cur.buckets[j]);
    }
  }

  lemma AlertsKeepUp(cfg: Config, cur: Cursor, log: seq<Send>, since: nat) returns (next: Cursor)
    requires Midway(cfg, cur, log, since) && !Finished(cur) && BucketChanged(cur.buckets[cur.next])
    requires |cur.sends| == |ChannelsOf(cur.group)|
    requires Delivered(cur.members, BaseLog(cur, log), since, ChannelsOf(cur.group), cur.buckets[cur.next], cur.sends)
    ensures next == Advance(cfg, cur, log).0
    ensures forall fp | fp in next.members :: Ahead(next, fp) || next.failed || CaughtUp(next.members[fp])
  {
    var b := cur.buckets[cur.next];
    next := Advance(cfg, cur, log).0;
    forall fp | fp in next.members ensures Ahead(next, fp) || next.failed || CaughtUp(next.members[fp]) {
      if fp in Fps(b.members) && !AnyFailed(cur.sends) {
        ShownMeansCaughtUp(cur.members, BaseLog(cur, log), since, ChannelsOf(cur.group), b, cur.sends, fp);
      }
      StampProgress(cfg, cur, log, fp);
    }
  }

  lemma MidwayBetween(cfg: Config, cur: Cursor, log: seq<Send>, since: nat)
    requires Trackable(cur.group.channel) && cur.sends == [] && Book(cur.members, log, since, ChannelsOf(cur.group))
    requires (forall j | cur.next <= j < |cur.buckets| :: GoodBucket(cur.members, cur.buckets[j])) && Disjoint(cur.buckets)
    requires forall fp | fp in cur.members :: Ahead(cur, fp) || cur.failed || CaughtUp(cur.members[fp])
    ensures Midway(cfg, cur, log, since)
  {
    assert BaseLog(cur, log) == log && log + [] == log;
  }

  lemma StampKeeps(cfg: Config, cur: Cursor, log: seq<Send>, since: nat)
    requires Midway(cfg, cur, log, since) && !Finished(cur) && BucketChanged(cur.buckets[cur.next])
    requires |cur.sends| == |ChannelsOf(cur.group)| && FreshPosts(log)
    ensures Midway(cfg, Advance(cfg, cur, log).0, log, since)
  {
    MidwayDelivered(cfg, cur, log, since);
    DeliveredBook(cur.members, BaseLog(cur, log), since, ChannelsOf(cur.group), cur.buckets[cur.next], cur.sends);
    LaterBucketsKeep(cfg, cur, log, since);
    var next := AlertsKeepUp(cfg, cur, log, since);
    MidwayBetween(cfg, next, log, since);
  }

  lemma ShownMeansCaughtUp(members: Members, base: seq<Send>, since: nat, channels: seq<string>, b: Bucket, sends: seq<Send>, fp: string)
    requires Delivered(members, base, since, channels, b, sends) && channels != []
    requires fp in Fps(b.members) && !AnyFailed(sends)
    ensures fp in NextMembers(members, b, sends) && CaughtUp(NextMembers(members, b, sends)[fp])
  {
    BucketTargets(members, base, since, channels, b);
    KeptAre(b, sends, channels);
    InBucket(members, b, fp);
    assert Chans(Kept(b, sends)) != [];
  }

  lemma StampProgress(cfg: Config, cur: Cursor, log: seq<Send>, fp: string)
    requires !Finished(cur) && BucketChanged(cur.buckets[cur.next]) && |cur.sends| == |ChannelsOf(cur.group)|
    requires fp in cur.members && (Ahead(cur, fp) || cur.failed || CaughtUp(cur.members[fp]))
    requires var b := cur.buckets[cur.next]; var next := NextMembers(cur.members, b, cur.sends);
      fp in Fps(b.members) && !AnyFailed(cur.sends) ==> fp in next && CaughtUp(next[fp])
    ensures var next := Advance(cfg, cur, log).0;
      fp in next.members && (Ahead(next, fp) || next.failed || CaughtUp(next.members[fp]))
  {
    var b := cur.buckets[cur.next];
    var next := Advance(cfg, cur, log).0;
    if Ahead(cur, fp) && fp !in Fps(b.members) { AheadStays(cur, next, fp); }
  }

  lemma StillHolding(cfg: Config, c: Cell, id: nat, next: Cursor, log: seq<Send>)
    requires SerialInv(cfg, c, Held(id)) && c.log <= log
    requires next.group == c.open[id].group && Midway(cfg, next, log, c.since)
    requires OnePost(log, c.since) && UpdatesPosted(log, c.since)
    ensures SerialInv(cfg, c.(open := c.open[id := next], log := log), Held(id))
  { }

  lemma AdvanceKeeps(cfg: Config, cur: Cursor, log: seq<Send>, since: nat) returns (next: Cursor, log': seq<Send>)
    requires Midway(cfg, cur, log, since) && !Finished(cur) && OnePost(log, since) && UpdatesPosted(log, since)
    requires FreshPosts(Advance(cfg, cur, log).1)
    ensures (next, log') == Advance(cfg, cur, log) && log <= log' && next.group == cur.group
    ensures Midway(cfg, next, log', since) && OnePost(log', since) && UpdatesPosted(log', since)
  {
    next, log' := Advance(cfg, cur, log).0, Advance(cfg, cur, log).1;
    if !BucketChanged(cur.buckets[cur.next]) {
      SkipKeeps(cfg, cur, log, since);
    } else if |cur.sends| < |ChannelsOf(cur.group)| {
      CallMade(cfg, cur, log);
      CallKeeps(cfg, cur, log, since);
      CallPosts(cfg, cur, log, since, next.sends);
    } else {
      StampKeeps(cfg, cur, log, since);
    }
  }

  lemma WorkKeeps(cfg: Config, c: Cell, id: nat)
    requires SerialInv(cfg, c, Held(id)) && Enabled(cfg, c, Work(id))
    requires SaneSlack(Step(cfg, c, Work(id)).log)
    ensures SerialInv(cfg, Step(cfg, c, Work(id)), Held(id))
  {
    var next, log := AdvanceKeeps(cfg, c.open[id], c.log, c.since);
    StillHolding(cfg, c, id, next, log);
  }

  // ----------------------------------------------------- save and cleanup

  lemma SaveKeeps(cfg: Config, c: Cell, id: nat, now: int)
    requires SerialInv(cfg, c, Held(id)) && Enabled(cfg, c, Save(id, now))
    ensures SerialInv(cfg, Step(cfg, c, Save(id, now)), Free)
  {
    var cur := c.open[id];
    assert cur.sends == [] && BaseLog(cur, c.log) == c.log;
    assert c.open - {id} == map[];
  }

  lemma CleanupKeeps(cfg: Config, c: Cell, now: int)
    requires SerialInv(cfg, c, Free)
    ensures SerialInv(cfg, Step(cfg, c, Cleanup(now)), Free)
  { }

  lemma StepKeeps(cfg: Config, c: Cell, m: Mode, e: Event)
    requires SerialInv(cfg, c, m) && Enabled(cfg, c, e) && GoodEvent(e) && NextMode(m, e) != Bad
    requires SaneSlack(Step(cfg, c, e).log)
    ensures SerialInv(cfg, Step(cfg, c, e), NextMode(m, e))
  {
    match e
    case Upsert(_, _, _) => if m.Held? { LateUpsertKeeps(cfg, c, e, m.id); } else { UpsertKeeps(cfg, c, e); }
    case Claim(_, _, _) => ClaimKeeps(cfg, c, e);
    case Work(id) => WorkKeeps(cfg, c, id);
    case Save(id, now) => SaveKeeps(cfg, c, id, now);
    case Cleanup(now) => CleanupKeeps(cfg, c, now);
    case _ =>
  }

  /** A serialised run: valid, one worker at a time, every claim saved before
      the next claim or cleanup, rules that name destinations, and a Slack
      whose answers identify messages. */
  ghost predicate SerialRun(cfg: Config, c: Cell, m: Mode, tr: seq<Event>) {
    && Valid(cfg, c, tr) && ModeAfter(m, tr) != Bad && GoodEvents(tr)
    && SaneSlack(Run(cfg, c, tr).log)
  }

  lemma SerialRunStep(cfg: Config, c: Cell, m: Mode, tr: seq<Event>)
    requires tr != [] && SerialRun(cfg, c, m, tr)
    ensures SerialRun(cfg, Step(cfg, c, tr[0]), NextMode(m, tr[0]), tr[1..])
    ensures Enabled(cfg, c, tr[0]) && GoodEvent(tr[0]) && NextMode(m, tr[0]) != Bad
    ensures SaneSlack(Step(cfg, c, tr[0]).log)
  {
    if NextMode(m, tr[0]) == Bad { BadForever(tr[1..]); }
    assert tr[0] in tr;
    forall e | e in tr[1..] ensures GoodEvent(e) { assert e in tr; }
    RunExtendsLog(cfg, Step(cfg, c, tr[0]), NextMode(m, tr[0]), tr[1..]);
    SanePrefix(Run(cfg, c, tr).log, Step(cfg, c, tr[0]).log);
  }

  lemma {:induction false} RunKeeps(cfg: Config, c: Cell, m: Mode, tr: seq<Event>)
    requires SerialInv(cfg, c, m) && SerialRun(cfg, c, m, tr)
    ensures SerialInv(cfg, Run(cfg, c, tr), ModeAfter(m, tr))
    decreases |tr|
  {
    if tr != [] {
      SerialRunStep(cfg, c, m, tr);
      StepKeeps(cfg, c, m, tr[0]);
      RunKeeps(cfg, Step(cfg, c, tr[0]), NextMode(m, tr[0]), tr[1..]);
    }
  }

  lemma StartsWell(cfg: Config)
    ensures SerialInv(cfg, EMPTY, Free)
  { }

  // ------------------------------------------------------------ statuses

  predicate HaveStatus(members: Members) {
    forall fp | fp in members :: members[fp].status != ""
  }

  ghost predicate StatusInv(c: Cell) {
    (c.row.Some? ==> HaveStatus(c.row.value.members)) && forall id | id in c.open :: HaveStatus(c.open[id].members)
  }

  lemma StepStatus(cfg: Config, c: Cell, e: Event) returns (next: Cell)
    requires StatusInv(c) && Enabled(cfg, c, e) && GoodEvent(e) && !e.Flush?
    ensures next == Step(cfg, c, e) && StatusInv(next)
  {
    next := Step(cfg, c, e);
  }

  /** In a serialised run every alert has a status, since every webhook gives
      one. */
  lemma {:induction false} RunStatus(cfg: Config, c: Cell, m: Mode, tr: seq<Event>)
    requires StatusInv(c) && SerialRun(cfg, c, m, tr)
    ensures StatusInv(Run(cfg, c, tr))
    decreases |tr|
  {
    if tr != [] {
      SerialRunStep(cfg, c, m, tr);
      var next := StepStatus(cfg, c, tr[0]);
      RunStatus(cfg, next, NextMode(m, tr[0]), tr[1..]);
    }
  }
}
