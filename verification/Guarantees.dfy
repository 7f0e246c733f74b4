/** The promises made to the people reading the Slack channels. */
module Guarantees {
  import opened Prelude
  import opened Members
  import opened Batching
  import opened Channels
  import opened Slack
  import opened Flush
  import opened Groups
  import opened Protocol
  import opened Ledger
  import opened Delivery
  import opened Serialised
  import opened Reduction

  lemma Reaches(cfg: Config, tr: seq<Event>)
    requires SerialRun(cfg, EMPTY, Free, tr)
    ensures SerialInv(cfg, Run(cfg, EMPTY, tr), ModeAfter(Free, tr))
  {
    StartsWell(cfg);
    RunKeeps(cfg, EMPTY, Free, tr);
  }

  /** One message per alert and channel, edited in place: since the row was
      inserted, once a post for an alert was accepted in a channel, every later
      call for that alert in that channel updates that post, where Slack put
      it; and no call updates anything else. */
  lemma NeverReposted(cfg: Config, tr: seq<Event>)
    requires SerialRun(cfg, EMPTY, Free, tr)
    ensures var c := Run(cfg, EMPTY, tr); OnePost(c.log, c.since) && UpdatesPosted(c.log, c.since)
    ensures var c := Run(cfg, EMPTY, tr);
      forall i, j, fp | c.since <= i < j < |c.log| && PostedOk(c.log[i]) && PostedOk(c.log[j])
          && fp in Fps(c.log[i].members) && fp in Fps(c.log[j].members) ::
        c.log[i].channel != c.log[j].channel
  {
    Reaches(cfg, tr);
  }

  /** In every reachable state two alerts of a group share all their messages
      or none, and an alert's messages are in channels of the rule, in the
      rule's order, without repeats; all of them once it counts as shown. */
  lemma MessagesAndChannels(cfg: Config, tr: seq<Event>)
    requires SerialRun(cfg, EMPTY, Free, tr)
    ensures var c := Run(cfg, EMPTY, tr); c.row.Some? ==>
      && SameOrApart(c.row.value.members)
      && forall fp | fp in c.row.value.members ::
           var channels, m := ChannelList(c.row.value.channel), c.row.value.members[fp];
           && IsSubseq(Chans(m.notifiedTargets), channels) && NoDup(Chans(m.notifiedTargets))
           && (m.notifiedStatus != "" ==> Chans(m.notifiedTargets) == channels)
  {
    Reaches(cfg, tr);
    var c := Run(cfg, EMPTY, tr);
    if c.row.Some? {
      var channels := ChannelList(c.row.value.channel);
      ChannelListFacts(c.row.value.channel);
      forall fp | fp in c.row.value.members ensures NoDup(Chans(c.row.value.members[fp].notifiedTargets)) {
        assert Covered(c.row.value.members[fp], channels);
        SubseqNoDup(Chans(c.row.value.members[fp].notifiedTargets), channels);
      }
    }
  }

  /** Nothing is forgotten: when some bucket of a group needs sending, the row
      is waiting to be claimed or a worker holds it, whatever failed before. */
  lemma NoForgottenWork(cfg: Config, tr: seq<Event>, buckets: seq<Bucket>, b: Bucket)
    requires SerialRun(cfg, EMPTY, Free, tr)
    requires var c := Run(cfg, EMPTY, tr);
      c.row.Some? && IsBucketing(c.row.value.members, cfg.threshold, buckets) && b in buckets && BucketChanged(b)
    ensures var c := Run(cfg, EMPTY, tr); c.row.value.dirty || c.open != map[]
  {
    Reaches(cfg, tr);
    var c := Run(cfg, EMPTY, tr);
    if !c.row.value.dirty && ModeAfter(Free, tr) == Free {
      QuietBuckets(c.row.value.members, cfg.threshold, buckets, b);
    }
  }

  lemma QuietBuckets(members: Members, threshold: int, buckets: seq<Bucket>, b: Bucket)
    requires AllCaughtUp(members) && IsBucketing(members, threshold, buckets) && b in buckets
    ensures !BucketChanged(b)
  {
    var first := b.members[0];
    assert first in b.members && first.fingerprint in Fps(b.members);
    assert CaughtUp(members[first.fingerprint]);
    assert first.fingerprint !in Unsent(members);
    forall m | m in b.members ensures m.notifiedStatus == m.status {
      assert CaughtUp(members[m.fingerprint]);
    }
  }

  // ------------------------------------------- messages are for ever

  /** No alert lost a message, and the alerts that shared their messages are
      exactly those that still do. */
  ghost predicate Continues(before: Members, after: Members) {
    && (forall fp | fp in before :: fp in after)
    && (forall fp, t | fp in before && fp in after && t in before[fp].notifiedTargets :: t in after[fp].notifiedTargets)
    && (forall a, b | a in before && b in before && a in after && b in after
            && before[a].notifiedTargets != [] && before[b].notifiedTargets != [] ::
          before[a].notifiedTargets == before[b].notifiedTargets <==> after[a].notifiedTargets == after[b].notifiedTargets)
  }

  lemma ContinuesTransitive(a: Members, b: Members, c: Members)
    requires Continues(a, b) && Continues(b, c)
    ensures Continues(a, c)
  {
    forall fp | fp in a && a[fp].notifiedTargets != [] ensures b[fp].notifiedTargets != [] {
      assert a[fp].notifiedTargets[0] in a[fp].notifiedTargets;
    }
  }

  /** The group's alerts as its current holder, if any, sees them. */
  function View(c: Cell, m: Mode): Members
    requires c.row.Some? && (m.Held? ==> m.id in c.open)
  {
    if m.Held? then c.open[m.id].members else c.row.value.members
  }

  lemma StampContinues(members: Members, base: seq<Send>, since: nat, channels: seq<string>, b: Bucket, sends: seq<Send>)
    requires Delivered(members, base, since, channels, b, sends)
    ensures Continues(members, NextMembers(members, b, sends))
  {
    var next, kept := NextMembers(members, b, sends), Kept(b, sends);
    BucketTargets(members, base, since, channels, b);
    KeptAre(b, sends, channels);
    forall fp | fp in Fps(b.members) ensures fp in members && members[fp].notifiedTargets == b.targets { InBucket(members, b, fp); }
    forall fp | fp in members && fp !in Fps(b.members) ensures Apart(kept, members[fp].notifiedTargets) {
      KeptApart(members, base, since, channels, b, sends, fp);
    }
    forall x, y | x in members && y in members && members[x].notifiedTargets != [] && members[y].notifiedTargets != []
      ensures members[x].notifiedTargets == members[y].notifiedTargets <==> next[x].notifiedTargets == next[y].notifiedTargets
    {
      StampSharing(members, b, kept, next, x, y);
    }
  }

  lemma StampSharing(members: Members, b: Bucket, kept: seq<NotifiedTarget>, next: Members, x: string, y: string)
    requires GoodBucket(members, b) && next.Keys == members.Keys
    requires forall fp | fp in members :: next[fp].notifiedTargets == if fp in Fps(b.members) then kept else members[fp].notifiedTargets
    requires forall fp | fp in members && fp !in Fps(b.members) :: Apart(kept, members[fp].notifiedTargets)
    requires forall fp | fp in Fps(b.members) :: fp in members && members[fp].notifiedTargets == b.targets
    requires x in members && y in members && members[x].notifiedTargets != [] && members[y].notifiedTargets != []
    ensures members[x].notifiedTargets == members[y].notifiedTargets <==> next[x].notifiedTargets == next[y].notifiedTargets
  {
    if x in Fps(b.members) && y !in Fps(b.members) {
      var u := members[y].notifiedTargets[0];
      assert u in members[y].notifiedTargets && Apart(kept, members[y].notifiedTargets);
    } else if y in Fps(b.members) && x !in Fps(b.members) {
      var u := members[x].notifiedTargets[0];
      assert u in members[x].notifiedTargets && Apart(kept, members[x].notifiedTargets);
    }
  }

  lemma WorkContinues(cfg: Config, c: Cell, id: nat)
    requires SerialInv(cfg, c, Held(id)) && Enabled(cfg, c, Work(id)) && FreshPosts(c.log)
    ensures Continues(c.open[id].members, Step(cfg, c, Work(id)).open[id].members)
  {
    var cur := c.open[id];
    var b, channels := cur.buckets[cur.next], ChannelsOf(cur.group);
    if BucketChanged(b) && |cur.sends| >= |channels| {
      MidwayDelivered(cfg, cur, c.log, c.since);
      StampContinues(cur.members, BaseLog(cur, c.log), c.since, channels, b, cur.sends);
    }
  }

  lemma UpsertContinues(members: Members, e: GroupMember)
    requires IsEvent(e)
    ensures Continues(members, Recorded(members, e))
  { }

  lemma StepContinues(cfg: Config, c: Cell, m: Mode, e: Event)
    requires SerialInv(cfg, c, m) && Enabled(cfg, c, e) && NextMode(m, e) != Bad && FreshPosts(c.log)
    requires c.row.Some? && Step(cfg, c, e).row.Some?
    ensures NextMode(m, e).Held? ==> NextMode(m, e).id in Step(cfg, c, e).open
    ensures Continues(View(c, m), View(Step(cfg, c, e), NextMode(m, e)))
  {
    match e
    case Upsert(_, event, _) => if m.Free? { UpsertContinues(c.row.value.members, event); }
    case Work(id) => WorkContinues(cfg, c, id);
    case _ =>
  }

  /** From any reachable state on, as long as the row is not deleted: no alert
      loses a message, alerts that share a message share it for ever, and
      messages never merge or split, whatever Slack refuses. */
  lemma {:induction false} MessagesForEver(cfg: Config, c: Cell, m: Mode, tr: seq<Event>)
    requires SerialInv(cfg, c, m) && SerialRun(cfg, c, m, tr) && RowStays(cfg, c, tr)
    ensures SerialInv(cfg, Run(cfg, c, tr), ModeAfter(m, tr)) && Run(cfg, c, tr).row.Some?
    ensures Continues(View(c, m), View(Run(cfg, c, tr), ModeAfter(m, tr)))
    decreases |tr|
  {
    if tr != [] {
      var e := tr[0];
      var next := Step(cfg, c, e);
      SerialRunStep(cfg, c, m, tr);
      StepKeeps(cfg, c, m, e);
      StepExtendsLog(cfg, c, e);
      SanePrefix(next.log, c.log);
      StepContinues(cfg, c, m, e);
      MessagesForEver(cfg, next, NextMode(m, e), tr[1..]);
      ContinuesTransitive(View(c, m), View(next, NextMode(m, e)), View(Run(cfg, c, tr), ModeAfter(m, tr)));
    }
  }

  // ------------------------------------------------------ among many groups

  /** Every promise made for a serialised run holds for each group of a system
      in which workers, webhooks and cleanups of other groups interleave with
      it in any way. */
  lemma EachGroupIsSerial(cfgs: Configs, tr: seq<Labelled>, key: string)
    requires ValidAll(cfgs, map[], tr)
    requires ModeAfter(Free, Project(tr, key)) != Bad && GoodEvents(Project(tr, key))
    requires SaneSlack(At(RunAll(cfgs, map[], tr), key).log)
    ensures SerialRun(cfgs(key), EMPTY, Free, Project(tr, key))
    ensures var c := At(RunAll(cfgs, map[], tr), key);
      && c == Run(cfgs(key), EMPTY, Project(tr, key))
      && OnePost(c.log, c.since) && UpdatesPosted(c.log, c.since)
      && (c.row.Some? ==> SameOrApart(c.row.value.members))
  {
    Local(cfgs, map[], tr, key);
    Reaches(cfgs(key), Project(tr, key));
  }
}
