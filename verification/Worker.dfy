/** The flush worker: claim what is due, deliver it, save the outcome. */
module Worker {
  import opened Prelude
  import opened Members
  import opened Batching
  import opened Channels
  import opened Message
  import opened Slack
  import opened Flush
  import opened Groups
  import opened Protocol

  /** The table after a group's flush is saved; a row that is gone stays gone. */
  function SavedInto(rows: Rows, g: AlertGroup, p: Progress, savedAt: int): Rows {
    if g.groupKey in rows
    then rows[g.groupKey := AfterSave(rows[g.groupKey], p.members, p.failed, g.attempts, savedAt)]
    else rows
  }

  method ProcessGroup(client: Client, table: GroupTable, g: AlertGroup, threshold: int, savedAt: int)
    returns (ghost buckets: seq<Bucket>)
    requires WellKeyed(g.members)
    modifies client, table
    ensures IsBucketing(g.members, threshold, buckets)
    ensures Pass(table.rows, client.log)
      == AfterGroup(client.script, g, buckets, savedAt, Pass(old(table.rows), old(client.log)))
  {
    var channels := SplitChannels(g.channel);
    var divided := BuildBuckets(g.members, threshold);
    buckets := divided;
    forall b | b in divided ensures Drawn(g.members, b.members) {
      assert SentBucket(g.members, b) || FreshBucket(g.members, threshold, b);
    }
    var members, failed := DeliverBuckets(client, StyleOf(g), channels, divided, g.members);
    if failed {
      table.SaveGroupProgressFailed(g.groupKey, members, g.attempts, savedAt);
      return;
    }
    table.SaveGroupProgress(g.groupKey, members, savedAt);
  }

  /** The table and the Slack log as a worker leaves them. */
  datatype Pass = Pass(rows: Rows, log: seq<Send>)

  function AfterGroup(script: Script, g: AlertGroup, buckets: seq<Bucket>, savedAt: int, at: Pass): Pass {
    var p := ProgressOf(script, g, buckets, at.log);
    Pass(SavedInto(at.rows, g, p, savedAt), p.log)
  }

  /** A worker's pass over the groups it claimed, one after the other. */
  function AfterGroups(script: Script, groups: seq<AlertGroup>, bucketings: seq<seq<Bucket>>, clock: nat -> int, at: Pass): Pass
    requires |bucketings| == |groups|
  {
    if groups == [] then at
    else
      var before := AfterGroups(script, Init(groups), Init(bucketings), clock, at);
      AfterGroup(script, Last(groups), Last(bucketings), clock(|groups| - 1), before)
  }

  lemma OneMoreGroup(script: Script, groups: seq<AlertGroup>, i: nat, bucketings: seq<seq<Bucket>>, buckets: seq<Bucket>,
                     clock: nat -> int, start: Pass)
    requires i < |groups| && |bucketings| == i
    ensures AfterGroups(script, groups[..i + 1], bucketings + [buckets], clock, start)
      == AfterGroup(script, groups[i], buckets, clock(i), AfterGroups(script, groups[..i], bucketings, clock, start))
  {
    assert Init(groups[..i + 1]) == groups[..i];
    assert Init(bucketings + [buckets]) == bucketings;
  }

  ghost predicate AllWellKeyed(rows: Rows) {
    forall key | key in rows :: WellKeyed(rows[key].members)
  }

  /** The loop of a tick, over the groups it claimed. */
  method ProcessGroups(client: Client, table: GroupTable, groups: seq<AlertGroup>, threshold: int, clock: nat -> int)
    returns (ghost bucketings: seq<seq<Bucket>>)
    requires forall g | g in groups :: WellKeyed(g.members)
    modifies client, table
    ensures |bucketings| == |groups| && forall i | 0 <= i < |groups| :: IsBucketing(groups[i].members, threshold, bucketings[i])
    ensures Pass(table.rows, client.log)
      == AfterGroups(client.script, groups, bucketings, clock, Pass(old(table.rows), old(client.log)))
  {
    bucketings := [];
    ghost var start := Pass(table.rows, client.log);
    for i := 0 to |groups|
      invariant |bucketings| == i
      invariant forall j | 0 <= j < i :: IsBucketing(groups[j].members, threshold, bucketings[j])
      invariant Pass(table.rows, client.log) == AfterGroups(client.script, groups[..i], bucketings, clock, start)
    {
      assert groups[i] in groups;
      ghost var buckets := ProcessGroup(client, table, groups[i], threshold, clock(i));
      OneMoreGroup(client.script, groups, i, bucketings, buckets, clock, start);
      bucketings := bucketings + [buckets];
    }
    assert groups[..|groups|] == groups;
  }

  /** One tick: `clock(i)` is the time of the i-th save. */
  method FlushDueGroups(client: Client, table: GroupTable, threshold: int, limit: nat, lease: int, now: int,
                        locked: set<string>, clock: nat -> int)
    returns (ghost groups: seq<AlertGroup>, ghost bucketings: seq<seq<Bucket>>)
    requires AllWellKeyed(table.rows)
    modifies client, table
    ensures IsClaim(old(table.rows), locked, now, limit, groups)
    ensures |bucketings| == |groups| && forall i | 0 <= i < |groups| :: IsBucketing(groups[i].members, threshold, bucketings[i])
    ensures Pass(table.rows, client.log) == AfterGroups(client.script, groups, bucketings, clock,
      Pass(ClaimedRows(old(table.rows), KeysOf(groups), now, lease), old(client.log)))
  {
    var claimed := table.ClaimDueGroups(limit, lease, now, locked);
    groups := claimed;
    forall g | g in claimed ensures WellKeyed(g.members) { }
    bucketings := ProcessGroups(client, table, claimed, threshold, clock);
  }

  /** A claim of many groups is a claim of each: what the table holds of every
      group afterwards is what the one-group step leaves. */
  lemma BatchClaimIsManyClaims(cfg: Config, rows: Rows, locked: set<string>, now: int, limit: nat, groups: seq<AlertGroup>,
                               key: string, c: Cell, id: nat, buckets: seq<Bucket>)
    requires IsClaim(rows, locked, now, limit, groups) && key in rows && c.row == Some(rows[key]) && id !in c.open
    requires IsBucketing(rows[key].members, cfg.threshold, buckets)
    ensures key in ClaimedRows(rows, KeysOf(groups), now, cfg.lease)
    ensures key in KeysOf(groups) ==>
      && Enabled(cfg, c, Claim(id, now, buckets))
      && Step(cfg, c, Claim(id, now, buckets)).row == Some(ClaimedRows(rows, KeysOf(groups), now, cfg.lease)[key])
      && Step(cfg, c, Claim(id, now, buckets)).open[id].members == rows[key].members
    ensures key !in KeysOf(groups) ==> ClaimedRows(rows, KeysOf(groups), now, cfg.lease)[key] == rows[key]
  {
    if key in KeysOf(groups) {
      var g :| g in groups && g.groupKey == key;
      assert Claimable(rows, locked, now, g.groupKey);
    }
  }

  // ------------------------------------- a tick is a run of the protocol

  /** Where one oracle is asked for the n-th call, the other is asked for the
      same one. */
  ghost predicate SameAnswers(script: Script, n: nat, other: Script, m: nat) {
    forall j: nat | j >= m :: other(j) == script(j - m + n)
  }

  lemma ShiftedCalls(script: Script, n: nat, other: Script, m: nat, style: GroupStyle, b: Bucket, channels: seq<string>)
    requires SameAnswers(script, n, other, m)
    ensures Calls(script, style, b, channels, n) == Calls(other, style, b, channels, m)
  {
    var l, r := Calls(script, style, b, channels, n), Calls(other, style, b, channels, m);
    forall i | 0 <= i < |channels| ensures l[i] == r[i] {
      assert other(m + i) == script(n + i);
      assert l[i] == SendFor(script, style, b, channels[i], n + i) && r[i] == SendFor(other, style, b, channels[i], m + i);
    }
  }

  lemma AnswersOnward(script: Script, other: Script, p: seq<Send>, q: seq<Send>, made: seq<Send>)
    requires SameAnswers(script, |p|, other, |q|)
    ensures SameAnswers(script, |p + made|, other, |q + made|)
  { }

  /** A group's flush is the same whatever log it is appended to. */
  lemma {:induction false} ShiftedFlush(script: Script, other: Script, style: GroupStyle, channels: seq<string>, bs: seq<Bucket>,
                                        p: Progress, q: Progress) returns (made: seq<Send>)
    requires Alike(script, other, p, q)
    ensures var p', q' := AfterBuckets(script, style, channels, bs, p), AfterBuckets(other, style, channels, bs, q);
      Alike(script, other, p', q') && p'.log == p.log + made && q'.log == q.log + made
    decreases |bs|
  {
    made := [];
    if bs != [] {
      var before := ShiftedFlush(script, other, style, channels, Init(bs), p, q);
      var pb, qb := AfterBuckets(script, style, channels, Init(bs), p), AfterBuckets(other, style, channels, Init(bs), q);
      var sends := ShiftedBucket(script, other, style, channels, Last(bs), pb, qb);
      made := before + sends;
      LogsConcat(p.log, before, sends);
      LogsConcat(q.log, before, sends);
    }
  }

  ghost predicate Alike(script: Script, other: Script, p: Progress, q: Progress) {
    SameAnswers(script, |p.log|, other, |q.log|) && p.members == q.members && p.failed == q.failed
  }

  lemma ShiftedBucket(script: Script, other: Script, style: GroupStyle, channels: seq<string>, b: Bucket,
                      p: Progress, q: Progress) returns (made: seq<Send>)
    requires Alike(script, other, p, q)
    ensures var p', q' := AfterBucket(script, style, channels, b, p), AfterBucket(other, style, channels, b, q);
      Alike(script, other, p', q') && p'.log == p.log + made && q'.log == q.log + made
  {
    made := if BucketChanged(b) then Calls(script, style, b, channels, |p.log|) else [];
    assert p.log + [] == p.log && q.log + [] == q.log;
    ShiftedCalls(script, |p.log|, other, |q.log|, style, b, channels);
    AnswersOnward(script, other, p.log, q.log, made);
  }

  /** Processing a claimed group by its loops is the protocol's flush step on
      the group's own row and log, wherever the client's log stands. */
  lemma ProcessingIsTheFlushStep(cfg: Config, script: Script, key: string, c: Cell, now: int, savedAt: int, buckets: seq<Bucket>, at: Pass)
    requires c.row.Some? && RowAt(at.rows, key) == Some(Claimed(c.row.value, now, cfg.lease))
    requires SameAnswers(script, |at.log|, cfg.script, |c.log|)
    ensures var after := AfterGroup(script, Snapshot(key, c.row.value), buckets, savedAt, at);
      var flushed := Step(cfg, c, Flush(now, savedAt, buckets));
      && RowAt(after.rows, key) == flushed.row
      && c.log <= flushed.log && after.log == at.log + flushed.log[|c.log|..]
      && forall other | other != key :: RowAt(after.rows, other) == RowAt(at.rows, other)
  {
    var g := Snapshot(key, c.row.value);
    var made := ShiftedFlush(script, cfg.script, StyleOf(g), ChannelsOf(g), buckets,
      Progress(g.members, false, at.log), Progress(g.members, false, c.log));
    assert (c.log + made)[|c.log|..] == made;
  }

  lemma {:induction false} OtherRowsStay(script: Script, groups: seq<AlertGroup>, bucketings: seq<seq<Bucket>>, clock: nat -> int,
                                         start: Pass, key: string)
    requires |bucketings| == |groups| && key !in KeysOf(groups)
    ensures RowAt(AfterGroups(script, groups, bucketings, clock, start).rows, key) == RowAt(start.rows, key)
  {
    if groups != [] {
      assert Last(groups) in groups && Last(groups).groupKey in KeysOf(groups);
      forall k | k in KeysOf(Init(groups)) ensures k in KeysOf(groups) {
        var g :| g in Init(groups) && g.groupKey == k;
        assert g in groups;
      }
      OtherRowsStay(script, Init(groups), Init(bucketings), clock, start, key);
    }
  }

  lemma {:induction false} LaterGroupsLeave(script: Script, groups: seq<AlertGroup>, bucketings: seq<seq<Bucket>>, clock: nat -> int,
                                            start: Pass, i: nat)
    requires |bucketings| == |groups| && i < |groups|
    requires forall j, k | 0 <= j < k < |groups| :: groups[j].groupKey != groups[k].groupKey
    ensures RowAt(AfterGroups(script, groups, bucketings, clock, start).rows, groups[i].groupKey)
      == RowAt(AfterGroups(script, groups[..i + 1], bucketings[..i + 1], clock, start).rows, groups[i].groupKey)
    decreases |groups|
  {
    if i == |groups| - 1 {
      assert groups[..i + 1] == groups && bucketings[..i + 1] == bucketings;
    } else {
      LaterGroupsLeave(script, Init(groups), Init(bucketings), clock, start, i);
      assert Init(groups)[..i + 1] == groups[..i + 1] && Init(bucketings)[..i + 1] == bucketings[..i + 1];
      assert Last(groups).groupKey != groups[i].groupKey;
    }
  }

  lemma TickStep(cfg: Config, script: Script, groups: seq<AlertGroup>, bucketings: seq<seq<Bucket>>, clock: nat -> int,
                 start: Pass, now: int, i: nat, c: Cell, before: Pass)
    requires |bucketings| == |groups| && i < |groups| && c.row.Some? && groups[i] == Snapshot(groups[i].groupKey, c.row.value)
    requires groups[i].groupKey !in KeysOf(groups[..i])
    requires RowAt(start.rows, groups[i].groupKey) == Some(Claimed(c.row.value, now, cfg.lease))
    requires before == AfterGroups(script, groups[..i], bucketings[..i], clock, start)
    requires SameAnswers(script, |before.log|, cfg.script, |c.log|)
    ensures var after := AfterGroups(script, groups[..i + 1], bucketings[..i + 1], clock, start);
      var flushed := Step(cfg, c, Flush(now, clock(i), bucketings[i]));
      && c.log <= flushed.log && after.log == before.log + flushed.log[|c.log|..]
      && RowAt(after.rows, groups[i].groupKey) == flushed.row
  {
    OtherRowsStay(script, groups[..i], bucketings[..i], clock, start, groups[i].groupKey);
    OneMoreGroup(script, groups, i, bucketings[..i], bucketings[i], clock, start);
    PrefixSnoc(bucketings, i);
    ProcessingIsTheFlushStep(cfg, script, groups[i].groupKey, c, now, clock(i), bucketings[i], before);
  }

  /** A tick is a flush step of each group it claimed, on that group's row and
      log: FlushDueGroups is a run of the protocol. */
  lemma TickIsFlushSteps(cfg: Config, script: Script, rows: Rows, locked: set<string>, now: int, limit: nat, groups: seq<AlertGroup>,
                         bucketings: seq<seq<Bucket>>, clock: nat -> int, log: seq<Send>, i: nat, c: Cell)
    requires IsClaim(rows, locked, now, limit, groups) && |bucketings| == |groups| && i < |groups|
    requires IsBucketing(groups[i].members, cfg.threshold, bucketings[i])
    requires c.row == RowAt(rows, groups[i].groupKey)
    requires var start := Pass(ClaimedRows(rows, KeysOf(groups), now, cfg.lease), log);
      SameAnswers(script, |AfterGroups(script, groups[..i], bucketings[..i], clock, start).log|, cfg.script, |c.log|)
    ensures var start := Pass(ClaimedRows(rows, KeysOf(groups), now, cfg.lease), log);
      var before := AfterGroups(script, groups[..i], bucketings[..i], clock, start);
      var after := AfterGroups(script, groups[..i + 1], bucketings[..i + 1], clock, start);
      var flush := Flush(now, clock(i), bucketings[i]);
      var flushed := Step(cfg, c, flush);
      && Enabled(cfg, c, flush) && c.log <= flushed.log && after.log == before.log + flushed.log[|c.log|..]
      && RowAt(AfterGroups(script, groups, bucketings, clock, start).rows, groups[i].groupKey) == flushed.row
  {
    var start := Pass(ClaimedRows(rows, KeysOf(groups), now, cfg.lease), log);
    var key := ClaimedAt(rows, locked, now, limit, groups, i, cfg.lease);
    var before := AfterGroups(script, groups[..i], bucketings[..i], clock, start);
    TickStep(cfg, script, groups, bucketings, clock, start, now, i, c, before);
    LaterGroupsLeave(script, groups, bucketings, clock, start, i);
  }

  lemma ClaimedAt(rows: Rows, locked: set<string>, now: int, limit: nat, groups: seq<AlertGroup>, i: nat, lease: int) returns (key: string)
    requires IsClaim(rows, locked, now, limit, groups) && i < |groups|
    ensures key == groups[i].groupKey && key in rows && Due(rows[key], now) && groups[i] == Snapshot(key, rows[key])
    ensures key !in KeysOf(groups[..i])
    ensures RowAt(ClaimedRows(rows, KeysOf(groups), now, lease), key) == Some(Claimed(rows[key], now, lease))
  {
    key := groups[i].groupKey;
    assert groups[i] in groups && Claimable(rows, locked, now, key);
    forall k | k in KeysOf(groups[..i]) ensures k != key {
      var g :| g in groups[..i] && g.groupKey == k;
      var j :| 0 <= j < i && groups[j] == g;
    }
  }

  /** And rows that were not claimed are left alone. */
  lemma TickLeavesOthers(script: Script, rows: Rows, now: int, lease: int, groups: seq<AlertGroup>, bucketings: seq<seq<Bucket>>,
                         clock: nat -> int, log: seq<Send>, key: string)
    requires |bucketings| == |groups| && key !in KeysOf(groups)
    ensures var start := Pass(ClaimedRows(rows, KeysOf(groups), now, lease), log);
      RowAt(AfterGroups(script, groups, bucketings, clock, start).rows, key) == RowAt(rows, key)
  {
    OtherRowsStay(script, groups, bucketings, clock, Pass(ClaimedRows(rows, KeysOf(groups), now, lease), log), key);
  }
}
