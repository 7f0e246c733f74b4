/** The delivery protocol of one group: webhooks, any number of flush workers
    and the cleanup job as interleaved atomic steps. */
module Protocol {
  import opened Prelude
  import opened Members
  import opened Batching
  import opened Channels
  import opened Message
  import opened Slack
  import opened Flush
  import opened Groups

  datatype Config = Config(script: Script, debounce: int, maxWindow: int, lease: int, threshold: int, olderThan: int)

  /** A claimed group in the hands of a worker: the buckets it was divided
      into, the one being delivered, and the calls already made for it. */
  datatype Cursor = Cursor(
    group: AlertGroup,
    buckets: seq<Bucket>,
    next: nat,
    sends: seq<Send>,
    members: Members,
    failed: bool)

  /** The row, the open claims, and the Slack calls made so far; `since` marks
      where the log stood when the row was inserted. */
  datatype Cell = Cell(row: Option<Row>, open: map<nat, Cursor>, log: seq<Send>, since: nat)

  const EMPTY := Cell(None, map[], [], 0)

  datatype Event =
    | Upsert(info: GroupInfo, event: GroupMember, now: int)
    | Claim(id: nat, now: int, buckets: seq<Bucket>)
    | Work(id: nat)
    | Save(id: nat, now: int)
    | Crash(id: nat)
    | Cleanup(now: int)
    /** A whole flush in one step: claim, every call, save. */
    | Flush(claimedAt: int, savedAt: int, buckets: seq<Bucket>)

  function StyleOf(g: AlertGroup): GroupStyle {
    GroupStyle(g.team, g.notificationOnly)
  }

  function ChannelsOf(g: AlertGroup): seq<string> {
    ChannelList(g.channel)
  }

  function Opened(r: Row, buckets: seq<Bucket>): Cursor {
    Cursor(Snapshot("", r), buckets, 0, [], r.members, false)
  }

  predicate Finished(cur: Cursor) {
    cur.next >= |cur.buckets|
  }

  /** One step of processGroup: skip an unchanged bucket, make the next call of
      the current one, or write its outcome back and move on. */
  function Advance(cfg: Config, cur: Cursor, log: seq<Send>): (Cursor, seq<Send>)
    requires !Finished(cur)
  {
    var b, channels := cur.buckets[cur.next], ChannelsOf(cur.group);
    if !BucketChanged(b) then
      (cur.(next := cur.next + 1), log)
    else if |cur.sends| < |channels| then
      var s := SendFor(cfg.script, StyleOf(cur.group), b, channels[|cur.sends|], |log|);
      (cur.(sends := cur.sends + [s]), log + [s])
    else
      (cur.(members := Stamp(cur.members, Fps(b.members), Kept(b, cur.sends), AnyFailed(cur.sends)),
            failed := cur.failed || AnyFailed(cur.sends), next := cur.next + 1, sends := []), log)
  }

  /** All the buckets of a claimed group, one after the other. */
  function ProgressOf(script: Script, g: AlertGroup, buckets: seq<Bucket>, log: seq<Send>): Progress {
    AfterBuckets(script, StyleOf(g), ChannelsOf(g), buckets, Progress(g.members, false, log))
  }

  ghost predicate Enabled(cfg: Config, c: Cell, e: Event) {
    match e
    case Upsert(_, event, _) => IsEvent(event)
    case Claim(id, now, buckets) =>
      c.row.Some? && Due(c.row.value, now) && id !in c.open && IsBucketing(c.row.value.members, cfg.threshold, buckets)
    case Work(id) => id in c.open && !Finished(c.open[id])
    case Save(id, _) => id in c.open && Finished(c.open[id])
    case Crash(id) => id in c.open
    case Cleanup(_) => true
    case Flush(now, _, buckets) =>
      c.row.Some? && Due(c.row.value, now) && IsBucketing(c.row.value.members, cfg.threshold, buckets)
  }

  function SaveRow(row: Option<Row>, members: Members, failed: bool, attempts: int, now: int): Option<Row> {
    if row.Some? then Some(AfterSave(row.value, members, failed, attempts, now)) else None
  }

  function Step(cfg: Config, c: Cell, e: Event): Cell {
    match e
    case Upsert(info, event, now) =>
      c.(row := Some(Upserted(c.row, info, event, cfg.debounce, cfg.maxWindow, now)),
         since := if c.row.Some? then c.since else |c.log|)
    case Claim(id, now, buckets) =>
      if c.row.None? then c
      else c.(row := Some(Claimed(c.row.value, now, cfg.lease)), open := c.open[id := Opened(c.row.value, buckets)])
    case Work(id) =>
      if id !in c.open || Finished(c.open[id]) then c
      else
        var (cur, log) := Advance(cfg, c.open[id], c.log);
        c.(open := c.open[id := cur], log := log)
    case Save(id, now) =>
      if id !in c.open then c
      else
        var cur := c.open[id];
        c.(row := SaveRow(c.row, cur.members, cur.failed, cur.group.attempts, now), open := c.open - {id})
    case Crash(id) =>
      c.(open := c.open - {id})
    case Cleanup(now) =>
      if c.row.Some? && Deletable(c.row.value, now, cfg.olderThan) then c.(row := None) else c
    case Flush(now, savedAt, buckets) =>
      if c.row.None? then c
      else
        var g := Snapshot("", c.row.value);
        var p := ProgressOf(cfg.script, g, buckets, c.log);
        c.(row := Some(AfterSave(Claimed(c.row.value, now, cfg.lease), p.members, p.failed, g.attempts, savedAt)), log := p.log)
  }

  function Run(cfg: Config, c: Cell, tr: seq<Event>): Cell
    decreases |tr|
  {
    if tr == [] then c else Run(cfg, Step(cfg, c, tr[0]), tr[1..])
  }

  ghost predicate Valid(cfg: Config, c: Cell, tr: seq<Event>)
    decreases |tr|
  {
    tr == [] || (Enabled(cfg, c, tr[0]) && Valid(cfg, Step(cfg, c, tr[0]), tr[1..]))
  }

  /** The row is there all along. */
  ghost predicate RowStays(cfg: Config, c: Cell, tr: seq<Event>)
    decreases |tr|
  {
    c.row.Some? && (tr == [] || RowStays(cfg, Step(cfg, c, tr[0]), tr[1..]))
  }

  // ------------------------------------------------------ serialised runs

  /** No worker, or the only worker, holds the group; Bad once a cleanup, a
      crash or a second worker came between a claim and its save.  Webhooks
      may land at any time. */
  datatype Mode = Free | Held(id: nat) | Bad

  function NextMode(m: Mode, e: Event): Mode {
    match m
    case Free =>
      (match e
       case Upsert(_, _, _) => Free
       case Cleanup(_) => Free
       case Claim(id, _, _) => Held(id)
       case _ => Bad)
    case Held(id) =>
      (match e
       case Upsert(_, _, _) => m
       case Work(other) => if other == id then m else Bad
       case Save(other, _) => if other == id then Free else Bad
       case _ => Bad)
    case Bad => Bad
  }

  function ModeAfter(m: Mode, tr: seq<Event>): Mode
    decreases |tr|
  {
    if tr == [] then m else ModeAfter(NextMode(m, tr[0]), tr[1..])
  }

  lemma {:induction false} BadForever(tr: seq<Event>)
    ensures ModeAfter(Bad, tr) == Bad
  {
    if tr != [] { BadForever(tr[1..]); }
  }

  /** The destinations a rule must name for its messages to be tracked. */
  predicate Trackable(channel: string) {
    ChannelList(channel) != [] && forall ch | ch in ChannelList(channel) :: CleanChannel(ch)
  }

  predicate GoodEvent(e: Event) {
    e.Upsert? ==> Trackable(e.info.channel) && e.event.status != ""
  }

  predicate GoodEvents(tr: seq<Event>) {
    forall e | e in tr :: GoodEvent(e)
  }

  /** Slack's answers identify messages. */
  ghost predicate SaneSlack(log: seq<Send>) {
    && FreshPosts(log)
    && forall s | s in log && PostedOk(s) :: '|' !in s.outcome.ts
  }

  lemma StepExtendsLog(cfg: Config, c: Cell, e: Event)
    requires !e.Flush?
    ensures c.log <= Step(cfg, c, e).log
  { }

  lemma {:induction false} RunExtendsLog(cfg: Config, c: Cell, m: Mode, tr: seq<Event>)
    requires ModeAfter(m, tr) != Bad
    ensures c.log <= Run(cfg, c, tr).log
    decreases |tr|
  {
    if tr != [] {
      if NextMode(m, tr[0]) == Bad { BadForever(tr[1..]); }
      StepExtendsLog(cfg, c, tr[0]);
      RunExtendsLog(cfg, Step(cfg, c, tr[0]), NextMode(m, tr[0]), tr[1..]);
    }
  }

  lemma SanePrefix(log: seq<Send>, prefix: seq<Send>)
    requires prefix <= log && SaneSlack(log)
    ensures SaneSlack(prefix)
  {
    FreshPrefix(log, prefix);
    forall s | s in prefix ensures s in log { }
  }
}
