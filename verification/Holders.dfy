/** Workers that hold a group at the same time: each delivers the snapshot it
    claimed, whatever is saved meanwhile. */
module Holders {
  import opened Prelude
  import opened Members
  import opened Batching
  import opened Channels
  import opened Slack
  import opened Flush
  import opened Protocol
  import opened Ledger
  import opened Serialised
  import opened Crashes

  /** The holder's own save or crash. */
  predicate Ends(e: Event, id: nat) {
    (e.Save? || e.Crash?) && e.id == id
  }

  lemma HolderStep(cfg: Config, c: Cell, e: Event, id: nat) returns (next: Cell)
    requires id in c.open && Enabled(cfg, c, e) && !Ends(e, id)
    ensures next == Step(cfg, c, e)
    ensures id in next.open && next.open[id].buckets == c.open[id].buckets && next.open[id].group == c.open[id].group
  {
    next := Step(cfg, c, e);
  }

  /** No step of any other actor changes what a holder is to deliver. */
  lemma {:induction false} HolderKeepsBuckets(cfg: Config, c: Cell, tr: seq<Event>, id: nat)
    requires id in c.open && Valid(cfg, c, tr) && forall e | e in tr :: !Ends(e, id)
    ensures var done := Run(cfg, c, tr);
      id in done.open && done.open[id].buckets == c.open[id].buckets && done.open[id].group == c.open[id].group
    decreases |tr|
  {
    if tr != [] {
      assert tr[0] in tr;
      forall e | e in tr[1..] ensures !Ends(e, id) { assert e in tr; }
      var next := HolderStep(cfg, c, tr[0], id);
      HolderKeepsBuckets(cfg, next, tr[1..], id);
    }
  }

  /** The holder's next step is the call s. */
  ghost predicate CallsNext(cfg: Config, c: Cell, id: nat, s: Send) {
    id in c.open && !Finished(c.open[id]) && Step(cfg, c, Work(id)).log == c.log + [s]
  }

  lemma CallIsOfBucket(cfg: Config, c: Cell, id: nat, s: Send) returns (b: Bucket)
    requires CallsNext(cfg, c, id, s)
    ensures b in c.open[id].buckets && s.members == b.members && s.op == OpFor(b.targets, s.channel)
    ensures s.style == StyleOf(c.open[id].group)
  {
    var cur := c.open[id];
    b := cur.buckets[cur.next];
    assert (c.log + [s])[|c.log|] == s;
  }

  /** A holder: it claimed the group before anything was saved, and neither
      saved nor crashed since, whatever else was done and saved after that. */
  ghost predicate Holds(cfg: Config, c: Cell, claiming: seq<Event>, after: seq<Event>, id: nat, at: Cell) {
    && UnsavedRun(cfg, c, claiming) && id in Run(cfg, c, claiming).open
    && Valid(cfg, Run(cfg, c, claiming), after) && (forall e | e in after :: !Ends(e, id))
    && at == Run(cfg, Run(cfg, c, claiming), after)
  }

  /** Its call for an alert is a post if and only if the alert had no message in
      the channel when the first worker claimed the group. */
  lemma HolderCalls(cfg: Config, c: Cell, claiming: seq<Event>, after: seq<Event>, id: nat, at: Cell, s: Send, fp: string)
    requires SerialInv(cfg, c, Free) && c.row.Some? && SaneSlack(c.log)
    requires Holds(cfg, c, claiming, after, id, at) && CallsNext(cfg, at, id, s) && fp in Fps(s.members)
    ensures s.op == OpFor(TargetsOf(c.row.value.members, fp), s.channel)
    ensures s.op.Post? <==> s.channel !in Chans(TargetsOf(c.row.value.members, fp))
  {
    var start, channel, done := c.row.value.members, c.row.value.channel, Run(cfg, c, claiming);
    StandsAtFirst(cfg, c);
    RunStands(cfg, c, claiming, start, c.log, c.since, channel);
    HolderKeepsBuckets(cfg, done, after, id);
    var b := CallIsOfBucket(cfg, at, id, s);
    assert StandingBucket(b, start);
    var m :| m in s.members && m.fingerprint == fp;
    ChannelListFacts(channel);
    TargetsDistinct(start, c.log, c.since, ChannelList(channel), fp);
    OpForTarget(TargetsOf(start, fp), s.channel);
  }

  /** Two workers that both claimed a group before anything was saved, one of
      which may have saved when the other makes its call: accepted calls of
      theirs for an alert in a channel are two posts if and only if the alert had
      no message there when the first of them claimed. */
  lemma HoldersPostTwice(cfg: Config, c: Cell, claiming1: seq<Event>, after1: seq<Event>, id1: nat, at1: Cell, s1: Send,
                         claiming2: seq<Event>, after2: seq<Event>, id2: nat, at2: Cell, s2: Send, fp: string)
    requires SerialInv(cfg, c, Free) && c.row.Some? && SaneSlack(c.log)
    requires Holds(cfg, c, claiming1, after1, id1, at1) && CallsNext(cfg, at1, id1, s1) && fp in Fps(s1.members)
    requires Holds(cfg, c, claiming2, after2, id2, at2) && CallsNext(cfg, at2, id2, s2) && fp in Fps(s2.members)
    requires s1.channel == s2.channel && s1.outcome.Accepted? && s2.outcome.Accepted?
    ensures PostedOk(s1) && PostedOk(s2) <==> s1.channel !in Chans(TargetsOf(c.row.value.members, fp))
  {
    HolderCalls(cfg, c, claiming1, after1, id1, at1, s1, fp);
    HolderCalls(cfg, c, claiming2, after2, id2, at2, s2, fp);
  }
}
