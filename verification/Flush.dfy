/** One flush of one group: which Slack calls are made, and what is kept of
    their answers. */
module Flush {
  import opened Prelude
  import opened Members
  import opened Batching
  import opened Message
  import opened Slack

  /** The targets of a bucket by rule channel; a later entry wins. */
  function Existing(ts: seq<NotifiedTarget>): map<string, NotifiedTarget> {
    if ts == [] then map[] else Existing(Init(ts))[Last(ts).channel := Last(ts)]
  }

  /** Rewrite the message the channel already has, post a new one otherwise. */
  function OpFor(ts: seq<NotifiedTarget>, ch: string): Op {
    var existing := Existing(ts);
    if ch in existing then Update(ApiChannel(existing[ch]), existing[ch].ts) else Post
  }

  /** The n-th call of the group, made for one bucket and one channel. */
  function SendFor(script: Script, style: GroupStyle, b: Bucket, ch: string, n: nat): Send {
    Send(ch, OpFor(b.targets, ch), style, b.members, script(n))
  }

  /** The calls for one bucket, one per channel in order. */
  function Calls(script: Script, style: GroupStyle, b: Bucket, channels: seq<string>, n: nat): (sends: seq<Send>)
    ensures |sends| == |channels|
    ensures forall i | 0 <= i < |channels| :: sends[i] == SendFor(script, style, b, channels[i], n + i)
  {
    if channels == [] then []
    else Calls(script, style, b, Init(channels), n) + [SendFor(script, style, b, Last(channels), n + |channels| - 1)]
  }

  lemma LogsConcat(a: seq<Send>, b: seq<Send>, c: seq<Send>)
    ensures a + b + c == a + (b + c)
  { }

  lemma CallsGrow(script: Script, style: GroupStyle, b: Bucket, channels: seq<string>, base: seq<Send>, sends: seq<Send>)
    requires |sends| < |channels|
    requires sends != [] ==> sends == Calls(script, style, b, channels[..|sends|], |base|)
    ensures sends + [SendFor(script, style, b, channels[|sends|], |base + sends|)]
         == Calls(script, style, b, channels[..|sends| + 1], |base|)
  {
    assert sends == Calls(script, style, b, channels[..|sends|], |base|);
  }

  /** What a call leaves behind: a target that existed stays, rewritten or
      not; a new one appears only when the post was accepted. */
  function TargetAfter(b: Bucket, s: Send): seq<NotifiedTarget> {
    var existing := Existing(b.targets);
    if s.channel in existing then [NotifiedTarget(s.channel, existing[s.channel].apiChannel, existing[s.channel].ts)]
    else if s.outcome.Accepted? then [MadeTarget(s.channel, s.outcome)]
    else []
  }

  function Kept(b: Bucket, sends: seq<Send>): seq<NotifiedTarget> {
    if sends == [] then [] else Kept(b, Init(sends)) + TargetAfter(b, Last(sends))
  }

  predicate AnyFailed(sends: seq<Send>) {
    exists s | s in sends :: s.outcome.Failed?
  }

  /** The bookkeeping after a bucket's calls: its alerts get the new targets,
      and count as shown only when every channel went through. */
  function Stamp(members: Members, fps: set<string>, targets: seq<NotifiedTarget>, failed: bool): Members {
    map fp | fp in members :: if fp in fps then Stamped(members[fp], targets, failed) else members[fp]
  }

  function Stamped(m: GroupMember, targets: seq<NotifiedTarget>, failed: bool): GroupMember {
    m.(notifiedTargets := targets, notifiedStatus := if failed then m.notifiedStatus else m.status)
  }

  datatype Progress = Progress(members: Members, failed: bool, log: seq<Send>)

  function AfterBucket(script: Script, style: GroupStyle, channels: seq<string>, b: Bucket, p: Progress): Progress {
    if !BucketChanged(b) then p
    else
      var sends := Calls(script, style, b, channels, |p.log|);
      Progress(Stamp(p.members, Fps(b.members), Kept(b, sends), AnyFailed(sends)),
               p.failed || AnyFailed(sends), p.log + sends)
  }

  function AfterBuckets(script: Script, style: GroupStyle, channels: seq<string>, bs: seq<Bucket>, p: Progress): Progress {
    if bs == [] then p
    else AfterBucket(script, style, channels, Last(bs), AfterBuckets(script, style, channels, Init(bs), p))
  }

  // ------------------------------------------------- the loops of the code

  /** The last target of a channel counts. */
  lemma {:induction false} LastTargetCounts(ts: seq<NotifiedTarget>, i: nat)
    requires i < |ts| && forall j | i < j < |ts| :: ts[j].channel != ts[i].channel
    ensures ts[i].channel in Existing(ts) && Existing(ts)[ts[i].channel] == ts[i]
  {
    if i < |ts| - 1 {
      assert Init(ts)[i] == ts[i];
      LastTargetCounts(Init(ts), i);
    }
  }

  method ExistingByChannel(ts: seq<NotifiedTarget>) returns (existing: map<string, NotifiedTarget>)
    ensures existing == Existing(ts)
  {
    existing := map[];
    for i := 0 to |ts|
      invariant existing == Existing(ts[..i])
    {
      existing := existing[ts[i].channel := ts[i]];
      assert Init(ts[..i + 1]) == ts[..i];
    }
    assert ts[..|ts|] == ts;
  }

  /** One channel of the inner loop: rewrite the message it has, or post one. */
  method DeliverOne(client: Client, style: GroupStyle, ch: string, existing: map<string, NotifiedTarget>, b: Bucket, card: Card, ghost s: Send)
    returns (made: seq<NotifiedTarget>, failed: bool)
    requires existing == Existing(b.targets) && IsCard(style, b.members, card)
    requires s == SendFor(client.script, style, b, ch, |client.log|)
    modifies client
    ensures client.log == old(client.log) + [s]
    ensures made == TargetAfter(b, s)
    ensures failed == s.outcome.Failed?
  {
    if ch in existing {
      var t := existing[ch];
      var apiChannel := t.apiChannel;
      if apiChannel == "" {
        apiChannel := t.channel;
      }
      var o := client.Update(ch, apiChannel, t.ts, style, b.members, card);
      return [NotifiedTarget(ch, t.apiChannel, t.ts)], o.Failed?;
    }
    var res := client.Post(ch, style, b.members, card);
    if res.Failed? {
      return [], true;
    }
    var target := NotifiedTarget(ch, "", res.ts);
    if res.channel != ch {
      target := target.(apiChannel := res.channel);
    }
    return [target], false;
  }

  /** The inner loop: one update or post per channel of the rule. */
  method DeliverBucket(client: Client, style: GroupStyle, channels: seq<string>, b: Bucket, card: Card)
    returns (newTargets: seq<NotifiedTarget>, failed: bool)
    requires IsCard(style, b.members, card)
    modifies client
    ensures client.log == old(client.log) + Calls(client.script, style, b, channels, |old(client.log)|)
    ensures newTargets == Kept(b, Calls(client.script, style, b, channels, |old(client.log)|))
    ensures failed == AnyFailed(Calls(client.script, style, b, channels, |old(client.log)|))
  {
    var existing := ExistingByChannel(b.targets);
    newTargets, failed := [], false;
    ghost var before := client.log;
    for i := 0 to |channels|
      invariant client.log == before + Calls(client.script, style, b, channels[..i], |before|)
      invariant newTargets == Kept(b, Calls(client.script, style, b, channels[..i], |before|))
      invariant failed == AnyFailed(Calls(client.script, style, b, channels[..i], |before|))
    {
      ghost var s := NextCall(client.script, style, b, channels, before, i, client.log);
      var made, channelFailed := DeliverOne(client, style, channels[i], existing, b, card, s);
      newTargets := newTargets + made;
      failed := failed || channelFailed;
    }
    assert channels[..|channels|] == channels;
  }

  lemma NextCall(script: Script, style: GroupStyle, b: Bucket, channels: seq<string>, before: seq<Send>, i: nat, log: seq<Send>)
    returns (s: Send)
    requires i < |channels| && log == before + Calls(script, style, b, channels[..i], |before|)
    ensures s == SendFor(script, style, b, channels[i], |log|)
    ensures var sends := Calls(script, style, b, channels[..i], |before|);
      && Calls(script, style, b, channels[..i + 1], |before|) == sends + [s]
      && log + [s] == before + (sends + [s])
      && Kept(b, sends + [s]) == Kept(b, sends) + TargetAfter(b, s)
      && AnyFailed(sends + [s]) == (AnyFailed(sends) || s.outcome.Failed?)
  {
    s := SendFor(script, style, b, channels[i], |before| + i);
    var sends := Calls(script, style, b, channels[..i], |before|);
    assert Init(channels[..i + 1]) == channels[..i];
    assert Init(sends + [s]) == sends;
    AnyFailedSnoc(sends, s);
  }

  lemma AnyFailedSnoc(sends: seq<Send>, s: Send)
    ensures AnyFailed(sends + [s]) == (AnyFailed(sends) || s.outcome.Failed?)
  {
    assert s in sends + [s];
    assert forall r | r in sends :: r in sends + [s];
  }

  /** The write-back loop over the alerts of a bucket. */
  method StampMembers(members: Members, ms: seq<GroupMember>, newTargets: seq<NotifiedTarget>, failed: bool)
    returns (stamped: Members)
    requires Fps(ms) <= members.Keys && NoDupFps(ms)
    ensures stamped == Stamp(members, Fps(ms), newTargets, failed)
  {
    stamped := members;
    for i := 0 to |ms|
      invariant stamped == Stamp(members, Fps(ms[..i]), newTargets, failed)
    {
      var fp := ms[i].fingerprint;
      assert fp in Fps(ms) && fp !in Fps(ms[..i]);
      var updated := stamped[fp];
      updated := updated.(notifiedTargets := newTargets);
      if !failed {
        updated := updated.(notifiedStatus := updated.status);
      }
      FpsSnoc(ms[..i], ms[i]);
      assert ms[..i + 1] == ms[..i] + [ms[i]];
      stamped := stamped[fp := updated];
    }
    assert ms[..|ms|] == ms;
  }

  /** The outer loop of processGroup, up to the final save. */
  method DeliverBuckets(client: Client, style: GroupStyle, channels: seq<string>, buckets: seq<Bucket>, g: Members)
    returns (members: Members, failed: bool)
    requires forall b | b in buckets :: Drawn(g, b.members)
    modifies client
    ensures Progress(members, failed, client.log)
      == AfterBuckets(client.script, style, channels, buckets, Progress(g, false, old(client.log)))
    ensures members.Keys == g.Keys
  {
    members := g;
    failed := false;
    ghost var start := Progress(g, false, client.log);
    for i := 0 to |buckets|
      invariant Progress(members, failed, client.log) == AfterBuckets(client.script, style, channels, buckets[..i], start)
      invariant members.Keys == g.Keys
    {
      var b := buckets[i];
      assert Init(buckets[..i + 1]) == buckets[..i];
      assert b in buckets;
      var changed := ComputeBucketChanged(b);
      if !changed {
        continue;
      }
      var card := RenderBucketMessage(style, b.members);
      var newTargets, bucketFailed := DeliverBucket(client, style, channels, b, card);
      if bucketFailed {
        failed := true;
      }
      members := StampMembers(members, b.members, newTargets, bucketFailed);
    }
    assert buckets[..|buckets|] == buckets;
  }
}
