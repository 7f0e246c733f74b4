/** After any history of failures one flush without failures leaves nothing to
    send: by the table's own bookkeeping every alert is shown everywhere with
    its status.  What the channels then really show is the matter of Display. */
module Convergence {
  import opened Prelude
  import opened Batching
  import opened Channels
  import opened Message
  import opened Slack
  import opened Flush
  import opened Groups
  import opened Protocol
  import opened Ledger
  import opened Serialised
  import opened Guarantees
  import opened Reduction

  function CallsLeft(cur: Cursor): nat {
    if |cur.sends| <= |ChannelsOf(cur.group)| then |ChannelsOf(cur.group)| - |cur.sends| else 0
  }

  /** A worker left alone finishes: the steps it takes until its save. */
  lemma {:induction false} WorkToTheEnd(cfg: Config, c: Cell, id: nat, savedAt: int) returns (tr: seq<Event>)
    requires c.open.Keys == {id}
    ensures Valid(cfg, c, tr) && ModeAfter(Held(id), tr) == Free && Undisturbed(Held(id), tr)
    ensures Atomic(tr) == [] && SaveTime(tr) == savedAt && GoodEvents(tr)
    decreases |c.open[id].buckets| - c.open[id].next, CallsLeft(c.open[id])
  {
    if Finished(c.open[id]) {
      tr := [Save(id, savedAt)];
      assert tr[1..] == [];
      assert ModeAfter(Free, tr[1..]) == Free;
    } else {
      var next := Step(cfg, c, Work(id));
      var rest := WorkToTheEnd(cfg, next, id, savedAt);
      tr := [Work(id)] + rest;
      assert tr[1..] == rest;
    }
  }

  /** A flush in one step is a claim, the worker's steps and its save. */
  lemma FlushIsARun(cfg: Config, c: Cell, now: int, savedAt: int, buckets: seq<Bucket>) returns (tr: seq<Event>)
    requires c.open == map[] && Enabled(cfg, c, Flush(now, savedAt, buckets))
    ensures Valid(cfg, c, tr) && ModeAfter(Free, tr) == Free && Undisturbed(Free, tr) && GoodEvents(tr)
    ensures Run(cfg, c, tr) == Step(cfg, c, Flush(now, savedAt, buckets))
  {
    var claim := Claim(0, now, buckets);
    var held := Step(cfg, c, claim);
    ClaimTakesOff(cfg, c, claim);
    var rest := WorkToTheEnd(cfg, held, 0, savedAt);
    CollapseHeld(cfg, c, now, buckets, 0, held, rest);
    tr := [claim] + rest;
    RunCons(cfg, c, claim, rest);
    assert tr[1..] == rest;
  }

  /** So it keeps everything those keep. */
  lemma FlushKeeps(cfg: Config, c: Cell, now: int, savedAt: int, buckets: seq<Bucket>)
    requires SerialInv(cfg, c, Free) && Enabled(cfg, c, Flush(now, savedAt, buckets))
    requires SaneSlack(Step(cfg, c, Flush(now, savedAt, buckets)).log)
    ensures SerialInv(cfg, Step(cfg, c, Flush(now, savedAt, buckets)), Free)
    ensures c.log <= Step(cfg, c, Flush(now, savedAt, buckets)).log
  {
    var tr := FlushIsARun(cfg, c, now, savedAt, buckets);
    RunExtendsLog(cfg, c, Free, tr);
    RunKeeps(cfg, c, Free, tr);
  }

  // -------------------------------------------------- a flush that succeeds

  /** Slack accepts every call from the n-th on. */
  ghost predicate Reliable(script: Script, n: nat) {
    forall i | i >= n :: script(i).Accepted?
  }

  lemma {:induction false} ReliableFlush(script: Script, style: GroupStyle, channels: seq<string>, bs: seq<Bucket>, p: Progress)
    requires Reliable(script, |p.log|) && !p.failed
    ensures !AfterBuckets(script, style, channels, bs, p).failed
    ensures |AfterBuckets(script, style, channels, bs, p).log| >= |p.log|
  {
    if bs != [] { ReliableFlush(script, style, channels, Init(bs), p); }
  }

  lemma {:induction false} NothingToSend(script: Script, style: GroupStyle, channels: seq<string>, bs: seq<Bucket>, p: Progress)
    requires forall b | b in bs :: !BucketChanged(b)
    ensures AfterBuckets(script, style, channels, bs, p) == p
  {
    if bs != [] {
      forall b | b in Init(bs) ensures b in bs { }
      NothingToSend(script, style, channels, Init(bs), p);
    }
  }

  lemma GoodFlushConverges(cfg: Config, c: Cell, now: int, savedAt: int, buckets: seq<Bucket>,
                              now': int, savedAt': int, buckets': seq<Bucket>)
    requires SerialInv(cfg, c, Free) && Enabled(cfg, c, Flush(now, savedAt, buckets)) && Reliable(cfg.script, |c.log|)
    requires SaneSlack(Step(cfg, c, Flush(now, savedAt, buckets)).log)
    requires HaveStatus(c.row.value.members)
    requires IsBucketing(Step(cfg, c, Flush(now, savedAt, buckets)).row.value.members, cfg.threshold, buckets')
    ensures var done := Step(cfg, c, Flush(now, savedAt, buckets));
      && !done.row.value.dirty && done.row.value.members.Keys == c.row.value.members.Keys
      && (forall fp | fp in done.row.value.members ::
            && done.row.value.members[fp].status == c.row.value.members[fp].status
            && done.row.value.members[fp].notifiedStatus == done.row.value.members[fp].status
            && Chans(done.row.value.members[fp].notifiedTargets) == ChannelList(c.row.value.channel))
      && (forall b | b in buckets' :: !BucketChanged(b))
    ensures var done := Step(cfg, c, Flush(now, savedAt, buckets));
      var again := Step(cfg, done, Flush(now', savedAt', buckets'));
      again.log == done.log && again.row.value.members == done.row.value.members
  {
    var g := Snapshot("", c.row.value);
    var done := Step(cfg, c, Flush(now, savedAt, buckets));
    FlushKeeps(cfg, c, now, savedAt, buckets);
    ReliableFlush(cfg.script, StyleOf(g), ChannelsOf(g), buckets, Progress(g.members, false, c.log));
    StatusesKept(cfg.script, StyleOf(g), ChannelsOf(g), buckets, Progress(g.members, false, c.log));
    forall fp | fp in done.row.value.members
      ensures Chans(done.row.value.members[fp].notifiedTargets) == ChannelList(c.row.value.channel)
    {
      assert CaughtUp(done.row.value.members[fp]) && Covered(done.row.value.members[fp], ChannelList(done.row.value.channel));
    }
    forall b | b in buckets' ensures !BucketChanged(b) {
      QuietBuckets(done.row.value.members, cfg.threshold, buckets', b);
    }
    var again := Snapshot("", done.row.value);
    NothingToSend(cfg.script, StyleOf(again), ChannelsOf(again), buckets', Progress(again.members, false, done.log));
  }

  /** From every state a serialised run can reach, with whatever failures
      behind it, one flush in which Slack accepts every call leaves nothing to
      send: the row is clean, every alert has messages in all the channels and
      counts as shown with its status, and no bucket is changed; flushing again
      calls nothing and changes no alert. */
  lemma OneGoodFlushConverges(cfg: Config, tr: seq<Event>, c: Cell, now: int, savedAt: int, buckets: seq<Bucket>,
                              now': int, savedAt': int, buckets': seq<Bucket>)
    requires SerialRun(cfg, EMPTY, Free, tr) && ModeAfter(Free, tr) == Free && c == Run(cfg, EMPTY, tr)
    requires Enabled(cfg, c, Flush(now, savedAt, buckets)) && Reliable(cfg.script, |c.log|)
    requires SaneSlack(Step(cfg, c, Flush(now, savedAt, buckets)).log)
    requires IsBucketing(Step(cfg, c, Flush(now, savedAt, buckets)).row.value.members, cfg.threshold, buckets')
    ensures var done := Step(cfg, c, Flush(now, savedAt, buckets));
      && !done.row.value.dirty && done.row.value.members.Keys == c.row.value.members.Keys
      && (forall fp | fp in done.row.value.members ::
            && done.row.value.members[fp].status == c.row.value.members[fp].status
            && done.row.value.members[fp].notifiedStatus == done.row.value.members[fp].status
            && Chans(done.row.value.members[fp].notifiedTargets) == ChannelList(c.row.value.channel))
      && (forall b | b in buckets' :: !BucketChanged(b))
    ensures var done := Step(cfg, c, Flush(now, savedAt, buckets));
      var again := Step(cfg, done, Flush(now', savedAt', buckets'));
      again.log == done.log && again.row.value.members == done.row.value.members
  {
    Reaches(cfg, tr);
    RunStatus(cfg, EMPTY, Free, tr);
    GoodFlushConverges(cfg, c, now, savedAt, buckets, now', savedAt', buckets');
  }

  lemma {:induction false} StatusesKept(script: Script, style: GroupStyle, channels: seq<string>, bs: seq<Bucket>, p: Progress)
    ensures var q := AfterBuckets(script, style, channels, bs, p);
      q.members.Keys == p.members.Keys && forall fp | fp in p.members :: q.members[fp].status == p.members[fp].status
  {
    if bs != [] { StatusesKept(script, style, channels, Init(bs), p); }
  }
}
