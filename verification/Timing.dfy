/** When a group is flushed: the debounce window and the retry backoff. */
module Timing {
  import opened Prelude
  import opened Groups
  import opened Protocol
  import opened Reduction

  predicate OnlyUpserts(tr: seq<Event>) {
    forall e | e in tr :: e.Upsert?
  }

  lemma {:induction false} UpsertsOnRow(cfg: Config, c: Cell, tr: seq<Event>)
    requires c.row.Some? && tr != [] && OnlyUpserts(tr)
    ensures var r := Run(cfg, c, tr).row;
      && r.Some? && r.value.dirty && r.value.maxFlushBy == c.row.value.maxFlushBy
      && Last(tr).Upsert? && r.value.flushAfter == Min(Last(tr).now + cfg.debounce, c.row.value.maxFlushBy)
    decreases |tr|
  {
    assert tr[0] in tr;
    if |tr| == 1 {
      assert tr[1..] == [];
    } else {
      forall e | e in tr[1..] ensures e.Upsert? { assert e in tr; }
      UpsertsOnRow(cfg, Step(cfg, c, tr[0]), tr[1..]);
    }
  }

  /** A storm of events before the first claim flushes `debounce` after its
      last event, but never later than `maxWindow` after its first; the one
      exception is a lone event with a debounce longer than the window. */
  lemma DebounceLaw(cfg: Config, tr: seq<Event>)
    requires tr != [] && OnlyUpserts(tr)
    ensures tr[0].Upsert? && Last(tr).Upsert? && Run(cfg, EMPTY, tr).row.Some?
    ensures var r := Run(cfg, EMPTY, tr).row.value; r.dirty && r.maxFlushBy == tr[0].now + cfg.maxWindow
    ensures var law := Min(Last(tr).now + cfg.debounce, tr[0].now + cfg.maxWindow);
      Run(cfg, EMPTY, tr).row.value.flushAfter == law <==> |tr| >= 2 || cfg.debounce <= cfg.maxWindow
  {
    assert tr[0] in tr && Last(tr) in tr;
    if |tr| == 1 {
      assert tr[1..] == [];
    } else {
      forall e | e in tr[1..] ensures e.Upsert? { assert e in tr; }
      assert Last(tr[1..]) == Last(tr);
      UpsertsOnRow(cfg, Step(cfg, EMPTY, tr[0]), tr[1..]);
    }
  }

  lemma NextRow(cfg: Config, c: Cell, tr: seq<Event>) returns (next: Cell)
    requires RowStays(cfg, c, tr) && tr != []
    ensures Run(cfg, c, tr) == Run(cfg, next, tr[1..]) && RowStays(cfg, next, tr[1..])
    ensures next.row.Some? && next.row.value.maxFlushBy == c.row.value.maxFlushBy
    ensures tr[0].Upsert? && tr[0].now >= c.row.value.maxFlushBy ==> Due(next.row.value, tr[0].now)
  {
    next := Step(cfg, c, tr[0]);
  }

  /** The deadline is set when the row is inserted and never again, so from
      then on every event of an old group makes it due at once. */
  lemma {:induction false} DeadlineIsForLife(cfg: Config, c: Cell, tr: seq<Event>)
    requires RowStays(cfg, c, tr)
    ensures Run(cfg, c, tr).row.Some? && Run(cfg, c, tr).row.value.maxFlushBy == c.row.value.maxFlushBy
    ensures tr != [] && Last(tr).Upsert? && Last(tr).now >= c.row.value.maxFlushBy ==>
      Due(Run(cfg, c, tr).row.value, Last(tr).now)
    decreases |tr|
  {
    if tr != [] {
      var next := NextRow(cfg, c, tr);
      DeadlineIsForLife(cfg, next, tr[1..]);
      if |tr| > 1 {
        assert Last(tr[1..]) == Last(tr);
      } else {
        assert tr[1..] == [];
      }
    }
  }

  // -------------------------------------------------------------- backoff

  /** Waits grow by ten seconds per attempt up to five minutes. */
  lemma BackoffWaits(a: int, b: int)
    requires 0 <= a <= b
    ensures 10 <= Backoff(a) <= Backoff(b) <= 300
    ensures Backoff(a) == 300 <==> a >= 29
  { }

  /** The least total wait over k failed passes. */
  function TotalWait(k: nat): int {
    if k == 0 then 0 else TotalWait(k - 1) + Backoff(k - 1)
  }

  /** Flushes that all fail, each at a time the row was due. */
  ghost predicate FailingFlushes(cfg: Config, c: Cell, tr: seq<Event>)
    decreases |tr|
  {
    tr == [] ||
    (tr[0].Flush? && Enabled(cfg, c, tr[0]) && tr[0].claimedAt <= tr[0].savedAt
     && Step(cfg, c, tr[0]).row.value.dirty && FailingFlushes(cfg, Step(cfg, c, tr[0]), tr[1..]))
  }

  lemma FailedPass(cfg: Config, c: Cell, tr: seq<Event>) returns (next: Cell)
    requires c.row.Some? && tr != [] && FailingFlushes(cfg, c, tr)
    ensures Run(cfg, c, tr) == Run(cfg, next, tr[1..]) && FailingFlushes(cfg, next, tr[1..]) && next.row.Some?
    ensures var r, r' := c.row.value, next.row.value;
      && r'.attempts == r.attempts + 1
      && tr[0].Flush? && r'.flushAfter == tr[0].savedAt + Backoff(r.attempts) && tr[0].savedAt >= r.flushAfter
  {
    next := Step(cfg, c, tr[0]);
  }

  /** The closed form of the sum. */
  function LinearThenCapped(k: nat): int {
    if k <= 30 then 5 * (k * (k + 1)) else 4650 + 300 * (k - 30)
  }

  lemma LinearStep(k: nat)
    requires k > 0
    ensures LinearThenCapped(k) == LinearThenCapped(k - 1) + Backoff(k - 1)
  {
    assert k * (k + 1) == (k - 1) * k + 2 * k;
  }

  lemma {:induction false} TotalWaitIs(k: nat)
    ensures TotalWait(k) == LinearThenCapped(k)
  {
    if k > 0 {
      TotalWaitIs(k - 1);
      LinearStep(k);
    }
  }

  lemma OneWait(flushAfter: int, attempts: nat, start: int, savedAt: int)
    requires savedAt >= flushAfter >= start + TotalWait(attempts)
    ensures savedAt + Backoff(attempts) >= start + TotalWait(attempts + 1)
  { }

  lemma {:induction false} WaitsAddUp(cfg: Config, c: Cell, tr: seq<Event>, k: nat, n: nat, start: int) returns (r: Row)
    requires FailingFlushes(cfg, c, tr) && c.row.Some? && n == k + |tr|
    requires c.row.value.attempts == k && c.row.value.flushAfter >= start + TotalWait(k)
    ensures Run(cfg, c, tr).row == Some(r) && r.attempts == n && r.flushAfter >= start + TotalWait(n)
    decreases |tr|
  {
    if tr == [] {
      r := c.row.value;
    } else {
      var next := FailedPass(cfg, c, tr);
      OneWait(c.row.value.flushAfter, k, start, tr[0].savedAt);
      r := WaitsAddUp(cfg, next, tr[1..], k + 1, n, start);
    }
  }

  /** With no event in between, after k failed passes in a row the next attempt
      comes at least 5k(k+1) seconds after the first failure, or, past thirty
      of them, 4650 seconds and five minutes for each further one. */
  lemma BackoffBound(cfg: Config, c: Cell, tr: seq<Event>)
    requires c.row.Some? && c.row.value.attempts == 0 && tr != [] && FailingFlushes(cfg, c, tr)
    ensures Run(cfg, c, tr).row.Some?
    ensures var r := Run(cfg, c, tr).row.value;
      r.attempts == |tr| && r.flushAfter >= tr[0].savedAt + LinearThenCapped(|tr|)
  {
    var next := FailedPass(cfg, c, tr);
    var r := WaitsAddUp(cfg, next, tr[1..], 1, |tr|, tr[0].savedAt);
    TotalWaitIs(|tr|);
  }

  /** The same for workers that take their steps one by one. */
  lemma BackoffBoundForWorkers(cfg: Config, c: Cell, tr: seq<Event>)
    requires c.open == map[] && c.row.Some? && c.row.value.attempts == 0
    requires Valid(cfg, c, tr) && ModeAfter(Free, tr) == Free && Undisturbed(Free, tr)
    requires Atomic(tr) != [] && FailingFlushes(cfg, c, Atomic(tr))
    ensures Run(cfg, c, tr).row.Some?
    ensures var r := Run(cfg, c, tr).row.value;
      r.attempts == |Atomic(tr)| && r.flushAfter >= Atomic(tr)[0].savedAt + LinearThenCapped(|Atomic(tr)|)
  {
    CollapseFree(cfg, c, tr);
    BackoffBound(cfg, c, Atomic(tr));
  }
}
