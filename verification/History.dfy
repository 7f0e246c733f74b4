/** What the row says, by the events that made it: their times, their rules and
    their outcomes. */
module History {
  import opened Prelude
  import opened Members
  import opened Batching
  import opened Message
  import opened Slack
  import opened Flush
  import opened Groups
  import opened Protocol
  import opened Serialised
  import opened Guarantees
  import opened Reduction
  import opened Timing
  import opened Holders

  // --------------------------------------------------- when it was written

  /** The time of the last webhook or save, be it of a failed pass. */
  function LastWrite(tr: seq<Event>, start: int): int
    decreases |tr|
  {
    if tr == [] then start else LastWrite(tr[1..], WriteAfter(tr[0], start))
  }

  function WriteAfter(e: Event, start: int): int {
    match e
    case Upsert(_, _, now) => now
    case Save(_, now) => now
    case Flush(_, savedAt, _) => savedAt
    case _ => start
  }

  lemma StepWrites(cfg: Config, c: Cell, e: Event) returns (next: Cell)
    requires c.row.Some? && Enabled(cfg, c, e) && Step(cfg, c, e).row.Some?
    ensures next == Step(cfg, c, e) && next.row.value.updatedAt == WriteAfter(e, c.row.value.updatedAt)
  {
    next := Step(cfg, c, e);
  }

  lemma {:induction false} RowRemembersWrites(cfg: Config, c: Cell, tr: seq<Event>)
    requires Valid(cfg, c, tr) && RowStays(cfg, c, tr)
    ensures Run(cfg, c, tr).row.Some? && Run(cfg, c, tr).row.value.updatedAt == LastWrite(tr, c.row.value.updatedAt)
    decreases |tr|
  {
    if tr != [] {
      assert RowStays(cfg, Step(cfg, c, tr[0]), tr[1..]);
      var next := StepWrites(cfg, c, tr[0]);
      RowRemembersWrites(cfg, next, tr[1..]);
    }
  }

  // -------------------------------------------------------------- cleanups

  /** After any run of workers, webhooks, crashes, refusals and cleanups, the
      next cleanup deletes the row if and only if the last webhook or save is
      more than `olderThan` ago and every alert of the group is resolved. */
  lemma CleanupDecides(cfg: Config, c: Cell, tr: seq<Event>, now: int)
    requires Valid(cfg, c, tr) && RowStays(cfg, c, tr)
    ensures Run(cfg, c, tr).row.Some?
    ensures var done := Run(cfg, c, tr); var members := done.row.value.members;
      && (Step(cfg, done, Cleanup(now)).row == None <==>
            LastWrite(tr, c.row.value.updatedAt) < now - cfg.olderThan && forall fp | fp in members :: members[fp].status == "resolved")
      && (Step(cfg, done, Cleanup(now)).row != None ==> Step(cfg, done, Cleanup(now)) == done)
  {
    RowRemembersWrites(cfg, c, tr);
  }

  ghost predicate Unresolved(c: Cell) {
    c.row.Some? && exists fp :: fp in c.row.value.members && c.row.value.members[fp].status != "resolved"
  }

  /** At every cleanup some alert of the group is not resolved. */
  ghost predicate UnresolvedAtCleanups(cfg: Config, c: Cell, tr: seq<Event>)
    decreases |tr|
  {
    tr == [] || ((tr[0].Cleanup? ==> Unresolved(c)) && UnresolvedAtCleanups(cfg, Step(cfg, c, tr[0]), tr[1..]))
  }

  /** Such a row stays, however long ago it was written. */
  lemma {:induction false} UnresolvedRowStays(cfg: Config, c: Cell, tr: seq<Event>)
    requires c.row.Some? && UnresolvedAtCleanups(cfg, c, tr)
    ensures RowStays(cfg, c, tr)
    decreases |tr|
  {
    if tr != [] {
      var next := UnresolvedStep(cfg, c, tr[0]);
      UnresolvedRowStays(cfg, next, tr[1..]);
    }
  }

  lemma UnresolvedStep(cfg: Config, c: Cell, e: Event) returns (next: Cell)
    requires c.row.Some? && (e.Cleanup? ==> Unresolved(c))
    ensures next == Step(cfg, c, e) && next.row.Some?
  {
    next := Step(cfg, c, e);
  }

  /** Every cleanup comes at most `olderThan` after the last webhook or save. */
  predicate CleanupsInTime(cfg: Config, tr: seq<Event>, last: int)
    decreases |tr|
  {
    tr == [] ||
    ((tr[0].Cleanup? ==> tr[0].now <= last + cfg.olderThan) && CleanupsInTime(cfg, tr[1..], WriteAfter(tr[0], last)))
  }

  lemma {:induction false} RecentRowStays(cfg: Config, c: Cell, tr: seq<Event>)
    requires c.row.Some? && Valid(cfg, c, tr) && CleanupsInTime(cfg, tr, c.row.value.updatedAt)
    ensures RowStays(cfg, c, tr)
    decreases |tr|
  {
    if tr != [] {
      RecentStep(cfg, c, tr[0]);
      var next := StepWrites(cfg, c, tr[0]);
      RecentRowStays(cfg, next, tr[1..]);
    }
  }

  lemma RecentStep(cfg: Config, c: Cell, e: Event)
    requires c.row.Some? && (e.Cleanup? ==> e.now <= c.row.value.updatedAt + cfg.olderThan)
    ensures Step(cfg, c, e).row.Some?
  { }

  /** Whatever fails: while cleanups come at most `olderThan` after the last
      webhook or save, the row a first webhook inserted is there, and a bucket
      that needs sending finds it waiting or held. */
  lemma NoWorkIsCleanedAway(cfg: Config, tr: seq<Event>)
    requires SerialRun(cfg, EMPTY, Free, tr) && tr != [] && tr[0].Upsert? && CleanupsInTime(cfg, tr[1..], tr[0].now)
    ensures Run(cfg, EMPTY, tr).row.Some?
    ensures var c := Run(cfg, EMPTY, tr);
      forall buckets, b | IsBucketing(c.row.value.members, cfg.threshold, buckets) && b in buckets && BucketChanged(b) ::
        c.row.value.dirty || c.open != map[]
  {
    var c := Run(cfg, EMPTY, tr);
    RecentRowStays(cfg, Step(cfg, EMPTY, tr[0]), tr[1..]);
    RowRemembersWrites(cfg, Step(cfg, EMPTY, tr[0]), tr[1..]);
    forall buckets, b | IsBucketing(c.row.value.members, cfg.threshold, buckets) && b in buckets && BucketChanged(b)
      ensures c.row.value.dirty || c.open != map[]
    {
      NoForgottenWork(cfg, tr, buckets, b);
    }
  }

  /** After a failed pass the group is due again within five minutes, and no
      cleanup deletes it sooner than `olderThan` after that pass was saved. */
  lemma RetryComesFirst(cfg: Config, c: Cell, id: nat, savedAt: int, now: int)
    requires c.row.Some? && Enabled(cfg, c, Save(id, savedAt)) && c.open[id].failed
    ensures var saved := Step(cfg, c, Save(id, savedAt));
      && saved.row.Some? && Due(saved.row.value, savedAt + 300)
      && (now <= savedAt + cfg.olderThan ==> Step(cfg, saved, Cleanup(now)) == saved)
  { }

  // ------------------------------------------------------ team and style

  /** The team and style of the last webhook. */
  function LastStyle(tr: seq<Event>, start: GroupStyle): GroupStyle
    decreases |tr|
  {
    if tr == [] then start else LastStyle(tr[1..], StyleAfter(tr[0], start))
  }

  function StyleAfter(e: Event, start: GroupStyle): GroupStyle {
    if e.Upsert? then GroupStyle(e.info.team, e.info.notificationOnly) else start
  }

  ghost predicate Styled(c: Cell, style: GroupStyle) {
    c.row.Some? ==> c.row.value.team == style.team && c.row.value.notificationOnly == style.notificationOnly
  }

  lemma StepStyled(cfg: Config, c: Cell, e: Event, style: GroupStyle) returns (next: Cell)
    requires Styled(c, style)
    ensures next == Step(cfg, c, e) && Styled(next, StyleAfter(e, style))
  {
    next := Step(cfg, c, e);
  }

  lemma {:induction false} RowFollowsRule(cfg: Config, c: Cell, tr: seq<Event>, style: GroupStyle)
    requires Styled(c, style)
    ensures Styled(Run(cfg, c, tr), LastStyle(tr, style))
    decreases |tr|
  {
    if tr != [] {
      var next := StepStyled(cfg, c, tr[0], style);
      RowFollowsRule(cfg, next, tr[1..], StyleAfter(tr[0], style));
    }
  }

  /** In any run, every call of a worker's pass carries the team and style of
      the last webhook before its claim, whatever is edited, saved or cleaned up
      while it works. */
  lemma CallsFollowRule(cfg: Config, before: seq<Event>, claim: Event, after: seq<Event>, at: Cell, s: Send)
    requires claim.Claim? && Enabled(cfg, Run(cfg, EMPTY, before), claim)
    requires Valid(cfg, Step(cfg, Run(cfg, EMPTY, before), claim), after) && forall e | e in after :: !Ends(e, claim.id)
    requires at == Run(cfg, Step(cfg, Run(cfg, EMPTY, before), claim), after) && CallsNext(cfg, at, claim.id, s)
    ensures s.style == LastStyle(before, GroupStyle("", false))
  {
    RowFollowsRule(cfg, EMPTY, before, GroupStyle("", false));
    HolderKeepsBuckets(cfg, Step(cfg, Run(cfg, EMPTY, before), claim), after, claim.id);
    var b := CallIsOfBucket(cfg, at, claim.id, s);
  }

  // ------------------------------------------------------------- attempts

  /** The failed passes saved since the last webhook or good pass. */
  function Failures(cfg: Config, c: Cell, tr: seq<Event>, start: int): int
    decreases |tr|
  {
    if tr == [] then start
    else Failures(cfg, Step(cfg, c, tr[0]), tr[1..], FailuresAfter(c, tr[0], start))
  }

  function FailuresAfter(c: Cell, e: Event, start: int): int {
    match e
    case Upsert(_, _, _) => 0
    case Save(id, _) => if id in c.open && c.open[id].failed then start + 1 else 0
    case _ => start
  }

  lemma StepCounts(cfg: Config, c: Cell, e: Event) returns (next: Cell)
    requires c.row.Some? && Enabled(cfg, c, e) && !e.Flush? && Step(cfg, c, e).row.Some?
    ensures next == Step(cfg, c, e) && next.row.value.attempts == FailuresAfter(c, e, c.row.value.attempts)
  {
    next := Step(cfg, c, e);
  }

  /** The row counts exactly those. */
  lemma {:induction false} RowCountsFailures(cfg: Config, c: Cell, tr: seq<Event>)
    requires Valid(cfg, c, tr) && RowStays(cfg, c, tr) && forall e | e in tr :: !e.Flush?
    ensures Run(cfg, c, tr).row.Some? && Run(cfg, c, tr).row.value.attempts == Failures(cfg, c, tr, c.row.value.attempts)
    decreases |tr|
  {
    if tr != [] {
      assert tr[0] in tr && RowStays(cfg, Step(cfg, c, tr[0]), tr[1..]);
      forall e | e in tr[1..] ensures !e.Flush? { assert e in tr; }
      var next := StepCounts(cfg, c, tr[0]);
      RowCountsFailures(cfg, next, tr[1..]);
    }
  }

  /** A webhook starts the backoff afresh, whatever failed before: the first
      failed pass after it waits exactly ten seconds, and k of them in a row
      wait at least the sum that begins there. */
  lemma WebhookResetsBackoff(cfg: Config, c: Cell, e: Event, tr: seq<Event>)
    requires e.Upsert? && tr != [] && FailingFlushes(cfg, Step(cfg, c, e), tr)
    ensures tr[0].Flush? && Step(cfg, Step(cfg, c, e), tr[0]).row.Some?
    ensures var first := Step(cfg, Step(cfg, c, e), tr[0]).row.value;
      first.dirty && first.attempts == 1 && first.flushAfter == tr[0].savedAt + 10
    ensures Run(cfg, Step(cfg, c, e), tr).row.Some?
    ensures var r := Run(cfg, Step(cfg, c, e), tr).row.value;
      r.attempts == |tr| && r.flushAfter >= tr[0].savedAt + LinearThenCapped(|tr|)
  {
    var armed := Step(cfg, c, e);
    FirstFailure(cfg, armed, tr[0]);
    BackoffBound(cfg, armed, tr);
  }

  lemma FirstFailure(cfg: Config, c: Cell, f: Event)
    requires f.Flush? && Enabled(cfg, c, f) && c.row.value.attempts == 0 && Step(cfg, c, f).row.value.dirty
    ensures Step(cfg, c, f).row.Some?
    ensures var first := Step(cfg, c, f).row.value; first.attempts == 1 && first.flushAfter == f.savedAt + 10
  { }

  /** The same for a worker that takes its steps one by one. */
  lemma WebhookResetsBackoffForWorkers(cfg: Config, c: Cell, e: Event, tr: seq<Event>)
    requires e.Upsert? && c.open == map[] && Valid(cfg, Step(cfg, c, e), tr) && ModeAfter(Free, tr) == Free && Undisturbed(Free, tr)
    requires Atomic(tr) != [] && FailingFlushes(cfg, Step(cfg, c, e), Atomic(tr))
    ensures Run(cfg, Step(cfg, c, e), tr).row.Some?
    ensures var r := Run(cfg, Step(cfg, c, e), tr).row.value;
      && r.attempts == |Atomic(tr)| && r.flushAfter >= Atomic(tr)[0].savedAt + LinearThenCapped(|Atomic(tr)|)
      && (|Atomic(tr)| == 1 ==> r.flushAfter == Atomic(tr)[0].savedAt + 10)
  {
    CollapseFree(cfg, Step(cfg, c, e), tr);
    WebhookResetsBackoff(cfg, c, e, Atomic(tr));
    if |Atomic(tr)| == 1 { assert Atomic(tr)[1..] == []; }
  }

  // ------------------------------------------------------- the first event

  /** What the first event of a group settles, and what a claim does. */
  lemma FirstEventInserts(cfg: Config, c: Cell, e: Event)
    requires e.Upsert? && c.row == None
    ensures var next := Step(cfg, c, e);
      && next.row.Some? && next.since == |c.log| && next.open == c.open && next.log == c.log
      && var r := next.row.value;
         && r.channel == e.info.channel && r.members == map[e.event.fingerprint := e.event] && r.dirty && r.attempts == 0
         && r.flushAfter == e.now + cfg.debounce && r.maxFlushBy == e.now + cfg.maxWindow && r.updatedAt == e.now
  { }

  lemma ClaimOnlyMarks(cfg: Config, c: Cell, e: Event)
    requires e.Claim? && Enabled(cfg, c, e)
    ensures var r, next := c.row.value, Step(cfg, c, e);
      && next.row == Some(r.(dirty := false, flushAfter := e.now + cfg.lease)) && next.log == c.log
      && e.id in next.open && next.open[e.id].members == r.members && next.open[e.id].buckets == e.buckets
  { }
}
