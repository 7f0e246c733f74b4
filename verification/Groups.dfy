/** The alert_groups table: a durable queue of debounced alert groups. */
module Groups {
  import opened Prelude
  import opened Members
  import opened Slack

  /** One row.  Times are whole seconds. */
  datatype Row = Row(
    channel: string,
    team: string,
    notificationOnly: bool,
    members: Members,
    dirty: bool,
    attempts: int,
    flushAfter: int,
    maxFlushBy: int,
    updatedAt: int)

  /** The rule-level data an event carries along. */
  datatype GroupInfo = GroupInfo(groupKey: string, channel: string, team: string, notificationOnly: bool)

  /** A claimed row as the flush worker holds it. */
  datatype AlertGroup = AlertGroup(
    groupKey: string,
    channel: string,
    team: string,
    notificationOnly: bool,
    members: Members,
    attempts: int)

  const BACKOFF_STEP := 10
  const BACKOFF_CAP := 300

  function Min(a: int, b: int): int {
    if a <= b then a else b
  }

  /** INSERT ... ON CONFLICT DO UPDATE: the channel, the deadline of the
      debounce window and the other alerts are set once; the rule's team and
      style follow the rule, and the row is due again. */
  function Upserted(row: Option<Row>, info: GroupInfo, event: GroupMember, debounce: int, maxWindow: int, now: int): Row {
    match row
    case None =>
      Row(info.channel, info.team, info.notificationOnly, Recorded(map[], event),
          true, 0, now + debounce, now + maxWindow, now)
    case Some(r) =>
      Row(r.channel, info.team, info.notificationOnly, Recorded(r.members, event),
          true, 0, Min(now + debounce, r.maxFlushBy), r.maxFlushBy, now)
  }

  predicate Due(r: Row, now: int) {
    r.dirty && r.flushAfter <= now
  }

  function Claimed(r: Row, now: int, lease: int): Row {
    r.(dirty := false, flushAfter := now + lease)
  }

  function Snapshot(key: string, r: Row): AlertGroup {
    AlertGroup(key, r.channel, r.team, r.notificationOnly, r.members, r.attempts)
  }

  function Saved(r: Row, members: Members, now: int): Row {
    r.(members := members, dirty := false, attempts := 0, updatedAt := now)
  }

  function Backoff(attempts: int): int {
    Min((attempts + 1) * BACKOFF_STEP, BACKOFF_CAP)
  }

  function SavedFailed(r: Row, members: Members, attempts: int, now: int): Row {
    r.(members := members, dirty := true, attempts := r.attempts + 1,
       flushAfter := now + Backoff(attempts), updatedAt := now)
  }

  /** The save that ends a flush, by its outcome; attempts is the snapshot's. */
  function AfterSave(r: Row, members: Members, failed: bool, attempts: int, now: int): Row {
    if failed then SavedFailed(r, members, attempts, now) else Saved(r, members, now)
  }

  predicate AllResolved(members: Members) {
    forall fp | fp in members :: members[fp].status == "resolved"
  }

  predicate Deletable(r: Row, now: int, olderThan: int) {
    r.updatedAt < now - olderThan && AllResolved(r.members)
  }

  type Rows = map<string, Row>

  function RowAt(rows: Rows, key: string): Option<Row> {
    if key in rows then Some(rows[key]) else None
  }

  /** Keys a claim may take: due, and not locked by another worker's claim. */
  predicate Claimable(rows: Rows, locked: set<string>, now: int, key: string) {
    key in rows && key !in locked && Due(rows[key], now)
  }

  /** What ORDER BY flush_after LIMIT n FOR UPDATE SKIP LOCKED may return. */
  ghost predicate IsClaim(rows: Rows, locked: set<string>, now: int, limit: nat, groups: seq<AlertGroup>) {
    && |groups| <= limit
    && (forall g | g in groups :: Claimable(rows, locked, now, g.groupKey) && g == Snapshot(g.groupKey, rows[g.groupKey]))
    && (forall i, j | 0 <= i < j < |groups| :: groups[i].groupKey != groups[j].groupKey)
    && (forall i, j | 0 <= i < j < |groups| && groups[i].groupKey in rows && groups[j].groupKey in rows ::
          rows[groups[i].groupKey].flushAfter <= rows[groups[j].groupKey].flushAfter)
    && (forall key | Claimable(rows, locked, now, key) && key !in KeysOf(groups) ::
          |groups| == limit &&
          forall g | g in groups && g.groupKey in rows :: rows[g.groupKey].flushAfter <= rows[key].flushAfter)
  }

  function KeysOf(groups: seq<AlertGroup>): set<string> {
    set g | g in groups :: g.groupKey
  }

  function ClaimedRows(rows: Rows, keys: set<string>, now: int, lease: int): Rows {
    map key | key in rows :: if key in keys then Claimed(rows[key], now, lease) else rows[key]
  }

  function DeletedRows(rows: Rows, now: int, olderThan: int): Rows {
    map key | key in rows && !Deletable(rows[key], now, olderThan) :: rows[key]
  }

  class GroupTable {
    var rows: Rows

    constructor ()
      ensures rows == map[]
    {
      rows := map[];
    }

    method UpsertGroupMember(info: GroupInfo, event: GroupMember, debounce: int, maxWindow: int, now: int)
      modifies this
      ensures rows == old(rows)[info.groupKey :=
        Upserted(RowAt(old(rows), info.groupKey), info, event, debounce, maxWindow, now)]
      ensures var r := rows[info.groupKey];
        && r.team == info.team && r.notificationOnly == info.notificationOnly && r.dirty && r.attempts == 0 && r.updatedAt == now
        && r.channel == (if info.groupKey in old(rows) then old(rows)[info.groupKey].channel else info.channel)
        && r.maxFlushBy == (if info.groupKey in old(rows) then old(rows)[info.groupKey].maxFlushBy else now + maxWindow)
    {
      if info.groupKey !in rows {
        rows := rows[info.groupKey :=
          Row(info.channel, info.team, info.notificationOnly, map[event.fingerprint := event],
              true, 0, now + debounce, now + maxWindow, now)];
        return;
      }
      var r := rows[info.groupKey];
      var stored := r.members;
      if event.fingerprint in stored {
        stored := stored[event.fingerprint := Merge(stored[event.fingerprint], event)];
      } else {
        stored := stored[event.fingerprint := event];
      }
      r := r.(members := stored, team := info.team, notificationOnly := info.notificationOnly);
      r := r.(dirty := true, attempts := 0);
      r := r.(flushAfter := Min(now + debounce, r.maxFlushBy), updatedAt := now);
      rows := rows[info.groupKey := r];
    }

    method ClaimDueGroups(limit: nat, lease: int, now: int, locked: set<string>) returns (groups: seq<AlertGroup>)
      modifies this
      ensures IsClaim(old(rows), locked, now, limit, groups)
      ensures rows == ClaimedRows(old(rows), KeysOf(groups), now, lease)
    {
      groups := [];
      var rest := set key | key in rows && Claimable(rows, locked, now, key);
      ghost var before := rows;
      while |groups| < limit && rest != {}
        invariant |groups| <= limit && rows == before
        invariant Claiming(before, locked, now, groups, rest)
        decreases rest
      {
        EarliestExists(rows, rest);
        var key :| key in rest && forall other | other in rest :: rows[key].flushAfter <= rows[other].flushAfter;
        ClaimNext(before, locked, now, groups, rest, key);
        groups := groups + [Snapshot(key, rows[key])];
        rest := rest - {key};
      }
      ClaimDone(before, locked, now, limit, groups, rest);
      rows := map key | key in rows :: if key in KeysOf(groups) then Claimed(rows[key], now, lease) else rows[key];
    }

    method SaveGroupProgress(key: string, members: Members, now: int)
      modifies this
      ensures rows == if key in old(rows) then old(rows)[key := Saved(old(rows)[key], members, now)] else old(rows)
      ensures key in old(rows) ==> var r := rows[key];
        r.members == members && !r.dirty && r.attempts == 0 && r.updatedAt == now
    {
      if key in rows {
        rows := rows[key := rows[key].(members := members, dirty := false, attempts := 0, updatedAt := now)];
      }
    }

    method SaveGroupProgressFailed(key: string, members: Members, attempts: int, now: int)
      modifies this
      ensures rows == if key in old(rows) then old(rows)[key := SavedFailed(old(rows)[key], members, attempts, now)] else old(rows)
      ensures key in old(rows) ==> var r := rows[key];
        && r.members == members && r.dirty && r.attempts == old(rows)[key].attempts + 1 && r.updatedAt == now
        && r.flushAfter == now + (if attempts + 1 <= 30 then 10 * (attempts + 1) else 300)
    {
      var backoff := (attempts + 1) * BACKOFF_STEP;
      if backoff > BACKOFF_CAP {
        backoff := BACKOFF_CAP;
      }
      if key in rows {
        var r := rows[key];
        rows := rows[key := r.(members := members, dirty := true, attempts := r.attempts + 1,
                               flushAfter := now + backoff, updatedAt := now)];
      }
    }

    method CleanupResolvedGroups(olderThan: int, now: int) returns (count: nat)
      modifies this
      ensures rows == DeletedRows(old(rows), now, olderThan)
      ensures forall key | key in rows :: key in old(rows) && rows[key] == old(rows)[key]
      ensures forall key | key in old(rows) ::
        key !in rows <==> old(rows)[key].updatedAt < now - olderThan
                          && forall fp | fp in old(rows)[key].members :: old(rows)[key].members[fp].status == "resolved"
      ensures count == |old(rows)| - |rows|
    {
      var kept := map key | key in rows && !Deletable(rows[key], now, olderThan) :: rows[key];
      SubsetSize(kept.Keys, rows.Keys);
      count := |rows| - |kept|;
      rows := kept;
    }
  }

  /** A claim in progress: the groups taken so far and the keys left to take. */
  ghost predicate Claiming(rows: Rows, locked: set<string>, now: int, groups: seq<AlertGroup>, rest: set<string>) {
    && (forall g | g in groups :: Claimable(rows, locked, now, g.groupKey) && g == Snapshot(g.groupKey, rows[g.groupKey]))
    && (forall i, j | 0 <= i < j < |groups| :: groups[i].groupKey != groups[j].groupKey)
    && (forall i, j | 0 <= i < j < |groups| && groups[i].groupKey in rows && groups[j].groupKey in rows ::
          rows[groups[i].groupKey].flushAfter <= rows[groups[j].groupKey].flushAfter)
    && (forall key :: key in rest <==> Claimable(rows, locked, now, key) && key !in KeysOf(groups))
    && (forall g, key | g in groups && key in rest && g.groupKey in rows :: rows[g.groupKey].flushAfter <= rows[key].flushAfter)
  }

  lemma ClaimNext(rows: Rows, locked: set<string>, now: int, groups: seq<AlertGroup>, rest: set<string>, key: string)
    requires Claiming(rows, locked, now, groups, rest) && key in rest && rest <= rows.Keys
    requires forall other | other in rest :: rows[key].flushAfter <= rows[other].flushAfter
    ensures Claiming(rows, locked, now, groups + [Snapshot(key, rows[key])], rest - {key})
  {
    var g := Snapshot(key, rows[key]);
    var all := groups + [g];
    KeysSnoc(groups, g);
    forall i, j | 0 <= i < j < |all| ensures
      && all[i].groupKey != all[j].groupKey
      && (all[i].groupKey in rows && all[j].groupKey in rows ==>
          rows[all[i].groupKey].flushAfter <= rows[all[j].groupKey].flushAfter)
    {
      if j == |groups| { assert groups[i] in groups && groups[i].groupKey in KeysOf(groups); }
    }
  }

  lemma ClaimDone(rows: Rows, locked: set<string>, now: int, limit: nat, groups: seq<AlertGroup>, rest: set<string>)
    requires Claiming(rows, locked, now, groups, rest) && |groups| <= limit
    requires |groups| == limit || rest == {}
    ensures IsClaim(rows, locked, now, limit, groups)
  { }

  lemma {:induction false} EarliestExists(rows: Rows, keys: set<string>)
    requires keys != {} && keys <= rows.Keys
    ensures exists key :: key in keys && forall other | other in keys :: rows[key].flushAfter <= rows[other].flushAfter
  {
    var k :| k in keys;
    if keys != {k} {
      var rest := keys - {k};
      EarliestExists(rows, rest);
      var e :| e in rest && forall other | other in rest :: rows[e].flushAfter <= rows[other].flushAfter;
      var best := if rows[e].flushAfter <= rows[k].flushAfter then e else k;
      assert best in keys;
      forall other | other in keys ensures rows[best].flushAfter <= rows[other].flushAfter {
        assert other == k || other in rest;
      }
    }
  }

  lemma KeysSnoc(groups: seq<AlertGroup>, g: AlertGroup)
    ensures KeysOf(groups + [g]) == KeysOf(groups) + {g.groupKey}
  {
    assert g in groups + [g];
    forall key | key in KeysOf(groups) ensures key in KeysOf(groups + [g]) {
      var h :| h in groups && h.groupKey == key;
      assert h in groups + [g];
    }
  }
}
