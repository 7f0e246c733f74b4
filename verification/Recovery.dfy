/** What Slack shows of a group whose workers crashed, and what the next flush
    makes of it. */
module Recovery {
  import opened Prelude
  import opened Members
  import opened Batching
  import opened Channels
  import opened Slack
  import opened Flush
  import opened Groups
  import opened Protocol
  import opened Ledger
  import opened Serialised
  import opened Convergence
  import opened Agreement
  import opened Display
  import opened Crashes
  import opened Reposts

  // ------------------------------------------------------- the last call

  lemma UpdatedTarget(start: Members, base: seq<Send>, since: nat, channels: seq<string>, s: Send, fp: string) returns (u: NotifiedTarget)
    requires Book(start, base, since, channels) && NoDup(channels)
    requires s.op.Update? && s.op == OpFor(TargetsOf(start, fp), s.channel)
    ensures fp in start && u in start[fp].notifiedTargets && s.op == Update(ApiChannel(u), u.ts)
  {
    TargetsDistinct(start, base, since, channels, fp);
    OpForTarget(TargetsOf(start, fp), s.channel);
    u :| u in TargetsOf(start, fp) && u.channel == s.channel;
  }

  /** A call that reached the message carried all the alerts that share it. */
  lemma ReachedAll(start: Members, base: seq<Send>, log: seq<Send>, since: nat, channels: seq<string>, fp: string, t: NotifiedTarget, i: nat)
    requires Book(start, base, since, channels) && NoDup(channels) && base <= log && FreshPosts(log) && FreshPosts(base)
    requires fp in start && t in start[fp].notifiedTargets && |base| <= i < |log| && StandingCall(log[i], start, channels)
    requires SentTo(log[i]) == Some(AddressOf(t)) && log[i].outcome.Accepted?
    ensures NoDupFps(log[i].members) && Fps(log[i].members) == Sharing(start, start[fp].notifiedTargets)
  {
    assert Backed(base, since, fp, t);
    NoPostThere(base, log, since, fp, t, i);
    CarriesAll(start, base, since, channels, log[i], fp, t);
  }

  lemma CarriesAll(start: Members, base: seq<Send>, since: nat, channels: seq<string>, s: Send, fp: string, t: NotifiedTarget)
    requires Book(start, base, since, channels) && NoDup(channels) && FreshPosts(base) && StandingCall(s, start, channels)
    requires fp in start && t in start[fp].notifiedTargets && s.op == Update(ApiChannel(t), t.ts)
    ensures NoDupFps(s.members) && Fps(s.members) == Sharing(start, start[fp].notifiedTargets)
  {
    var m := s.members[0];
    assert m in s.members;
    var u := UpdatedTarget(start, base, since, channels, s, m.fingerprint);
    SameAddress(start, base, since, channels, fp, t, m.fingerprint, u);
  }

  lemma SameAddress(start: Members, base: seq<Send>, since: nat, channels: seq<string>, x: string, t: NotifiedTarget, y: string, u: NotifiedTarget)
    requires Book(start, base, since, channels) && FreshPosts(base) && x in start && y in start
    requires t in start[x].notifiedTargets && u in start[y].notifiedTargets && AddressOf(t) == AddressOf(u)
    ensures start[x].notifiedTargets == start[y].notifiedTargets
  {
    assert Backed(base, since, x, t) && Backed(base, since, y, u);
    if IdOf(t) != IdOf(u) { AddressesApart(base, since, x, y, t, u); }
    assert !Apart(start[x].notifiedTargets, start[y].notifiedTargets);
  }

  /** The statuses a call reported are those of the table. */
  predicate UpToDate(members: Members, s: Send) {
    forall m | m in s.members :: m.fingerprint in members && m.status == members[m.fingerprint].status
  }

  /** No alert that shares the messages ts has changed its status. */
  ghost predicate Unchanged(start: Members, members: Members, ts: seq<NotifiedTarget>) {
    forall fp | fp in Sharing(start, ts) :: fp in members && members[fp].status == start[fp].status
  }

  lemma ReachedIsCurrent(start: Members, members: Members, base: seq<Send>, log: seq<Send>, since: nat, channels: seq<string>,
                         fp: string, t: NotifiedTarget, i: nat)
    requires SameBooks(start, members) && Book(start, base, since, channels) && NoDup(channels)
    requires base <= log && FreshPosts(log) && FreshPosts(base)
    requires fp in start && fp in members && t in start[fp].notifiedTargets && |base| <= i < |log| && StandingCall(log[i], start, channels)
    requires SentTo(log[i]) == Some(AddressOf(t)) && log[i].outcome.Accepted? && Shown(log, AddressOf(t)) == Some(log[i])
    requires !log[i].style.notificationOnly
    ensures Current(members, log, fp, t) <==> UpToDate(members, log[i])
  {
    ReachedAll(start, base, log, since, channels, fp, t, i);
    SharingStands(start, members, start[fp].notifiedTargets);
  }

  lemma UnreachedIsCurrent(start: Members, members: Members, base: seq<Send>, log: seq<Send>, fp: string, t: NotifiedTarget)
    requires SameBooks(start, members) && fp in start && fp in members && t in start[fp].notifiedTargets
    requires Shown(log, AddressOf(t)) == Shown(base, AddressOf(t))
    ensures Current(members, log, fp, t) <==> ShownAgrees(members, base, start[fp].notifiedTargets, t)
    ensures Current(start, base, fp, t) ==>
      (Current(members, log, fp, t) <==> Unchanged(start, members, start[fp].notifiedTargets))
  {
    if Current(start, base, fp, t) { UnchangedIsCurrent(start, members, base, log, fp, t); }
  }

  /** What the message showed then agrees with the given table. */
  ghost predicate ShownAgrees(members: Members, log: seq<Send>, ts: seq<NotifiedTarget>, t: NotifiedTarget) {
    Shown(log, AddressOf(t)).Some? && ShowsTable(members, ts, Shown(log, AddressOf(t)).value)
  }

  lemma UnchangedIsCurrent(start: Members, members: Members, base: seq<Send>, log: seq<Send>, fp: string, t: NotifiedTarget)
    requires SameBooks(start, members) && Current(start, base, fp, t) && fp in members
    requires Shown(log, AddressOf(t)) == Shown(base, AddressOf(t))
    ensures Current(members, log, fp, t) <==> Unchanged(start, members, start[fp].notifiedTargets)
  {
    var ts, s := start[fp].notifiedTargets, Shown(base, AddressOf(t)).value;
    SharingStands(start, members, ts);
    forall x | x in Sharing(start, ts) ensures exists m :: m in s.members && m.fingerprint == x && m.status == start[x].status {
      assert x in Fps(s.members);
      var m :| m in s.members && m.fingerprint == x;
    }
    forall m | m in s.members ensures m.fingerprint in Sharing(start, ts) { assert m.fingerprint in Fps(s.members); }
  }

  lemma DecidedByLog(start: Members, members: Members, base: seq<Send>, log: seq<Send>, since: nat, channels: seq<string>,
                     fp: string, t: NotifiedTarget) returns (i: nat)
    requires SameBooks(start, members) && Book(start, base, since, channels) && NoDup(channels)
    requires base <= log && FreshPosts(log) && FreshPosts(base) && fp in start && t in start[fp].notifiedTargets
    requires forall j | |base| <= j < |log| :: StandingCall(log[j], start, channels) && !log[j].style.notificationOnly
    ensures fp in members
    ensures Reached(log, |base|, AddressOf(t)) ==>
      && |base| <= i < |log| && SentTo(log[i]) == Some(AddressOf(t)) && log[i].outcome.Accepted?
      && !Reached(log, i + 1, AddressOf(t)) && (Current(members, log, fp, t) <==> UpToDate(members, log[i]))
    ensures !Reached(log, |base|, AddressOf(t)) ==>
      && (Current(members, log, fp, t) <==> ShownAgrees(members, base, start[fp].notifiedTargets, t))
      && (Current(start, base, fp, t) ==> (Current(members, log, fp, t) <==> Unchanged(start, members, start[fp].notifiedTargets)))
  {
    assert log[..|base|] == base;
    i := ShownSince(log, |base|, AddressOf(t));
    if Reached(log, |base|, AddressOf(t)) {
      ReachedIsCurrent(start, members, base, log, since, channels, fp, t, i);
    } else {
      UnreachedIsCurrent(start, members, base, log, fp, t);
    }
  }

  /** While nothing is saved, and after any number of crashes: a message that
      some accepted call since the first claim reached reflects the table if
      and only if the statuses of the last such call are still those of the
      table; one that none reached does if and only if what it showed at the
      first claim agrees with the table, and when it reflected the table then,
      if and only if no alert that shares it has changed its status. */
  lemma LastCallDecides(cfg: Config, c: Cell, tr: seq<Event>, done: Cell, fp: string, t: NotifiedTarget) returns (i: nat)
    requires SerialInv(cfg, c, Free) && c.row.Some? && !c.row.value.notificationOnly && UnsavedRun(cfg, c, tr) && SaneSlack(c.log)
    requires done == Run(cfg, c, tr) && FreshPosts(done.log) && forall e | e in tr :: PlainEvent(e)
    requires fp in c.row.value.members && t in c.row.value.members[fp].notifiedTargets
    ensures done.row.Some? && fp in done.row.value.members
    ensures Reached(done.log, |c.log|, AddressOf(t)) ==>
      && |c.log| <= i < |done.log| && SentTo(done.log[i]) == Some(AddressOf(t)) && done.log[i].outcome.Accepted?
      && !Reached(done.log, i + 1, AddressOf(t))
      && (Current(done.row.value.members, done.log, fp, t) <==> UpToDate(done.row.value.members, done.log[i]))
    ensures var start, members := c.row.value.members, done.row.value.members;
      !Reached(done.log, |c.log|, AddressOf(t)) ==>
        && (Current(members, done.log, fp, t) <==> ShownAgrees(members, c.log, start[fp].notifiedTargets, t))
        && (Current(start, c.log, fp, t) ==>
              (Current(members, done.log, fp, t) <==> Unchanged(start, members, start[fp].notifiedTargets)))
  {
    var start, channel := c.row.value.members, c.row.value.channel;
    StandsAtFirst(cfg, c);
    RunStands(cfg, c, tr, start, c.log, c.since, channel);
    ChannelListFacts(channel);
    RunPlain(cfg, c, tr, |c.log|);
    i := DecidedByLog(start, done.row.value.members, c.log, done.log, c.since, ChannelList(channel), fp, t);
  }

  /** Crashed workers, none of which had a post accepted, and the webhook that
      makes the group due again. */
  ghost predicate CrashedWithoutPost(cfg: Config, c: Cell, tr: seq<Event>, done: Cell) {
    && SerialInv(cfg, c, Free) && c.row.Some? && UnsavedRun(cfg, c, tr) && SaneSlack(c.log)
    && done == Run(cfg, c, tr) && done.open == map[] && done.row.Some? && done.row.value.dirty && !PostsSince(done.log, |c.log|)
  }

  lemma SerialAgain(cfg: Config, c: Cell, tr: seq<Event>, done: Cell, now: int, savedAt: int, buckets: seq<Bucket>)
    requires CrashedWithoutPost(cfg, c, tr, done)
    requires Enabled(cfg, done, Flush(now, savedAt, buckets)) && SaneSlack(Step(cfg, done, Flush(now, savedAt, buckets)).log)
    ensures SerialInv(cfg, done, Free)
  {
    var g := Snapshot("", done.row.value);
    FlushExtends(cfg.script, StyleOf(g), ChannelsOf(g), buckets, Progress(g.members, false, done.log));
    SanePrefix(Step(cfg, done, Flush(now, savedAt, buckets)).log, done.log);
    CrashIsSurvived(cfg, c, tr);
  }

  /** The flush after that, whatever Slack makes of it, leaves a message in
      agreement with the table if and only if it reached it, or it agreed
      before; if Slack takes every call, if and only if its bucket was changed,
      or it agreed before. */
  lemma FlushAfterCrash(cfg: Config, c: Cell, tr: seq<Event>, done: Cell, now: int, savedAt: int, buckets: seq<Bucket>,
                        after: Cell, b: Bucket, fp: string, t: NotifiedTarget)
    requires CrashedWithoutPost(cfg, c, tr, done) && !done.row.value.notificationOnly
    requires Enabled(cfg, done, Flush(now, savedAt, buckets)) && after == Step(cfg, done, Flush(now, savedAt, buckets))
    requires SaneSlack(after.log) && fp in done.row.value.members && b in buckets && fp in Fps(b.members)
    ensures after.row.Some? && fp in after.row.value.members
    ensures t in after.row.value.members[fp].notifiedTargets ==>
      (Current(after.row.value.members, after.log, fp, t) <==>
         Reached(after.log, |done.log|, AddressOf(t)) || Current(done.row.value.members, done.log, fp, t))
    ensures t in after.row.value.members[fp].notifiedTargets && Reliable(cfg.script, |done.log|) ==>
      (Current(after.row.value.members, after.log, fp, t) <==> BucketChanged(b) || Current(done.row.value.members, done.log, fp, t))
  {
    SerialAgain(cfg, c, tr, done, now, savedAt, buckets);
    MessageAfterFlush(cfg, done, now, savedAt, buckets, fp, t);
    if Reliable(cfg.script, |done.log|) { MessageAfterGoodFlush(cfg, done, now, savedAt, buckets, b, fp, t); }
  }
}
