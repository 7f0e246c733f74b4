/** Groups of a single alert, and short runs. */
module Single {
  import opened Prelude
  import opened Members
  import opened Batching
  import opened Message
  import opened Slack
  import opened Flush
  import opened Groups
  import opened Protocol

  lemma {:induction false} RunAppend(cfg: Config, c: Cell, tr: seq<Event>, more: seq<Event>)
    ensures Run(cfg, c, tr + more) == Run(cfg, Run(cfg, c, tr), more)
    ensures Valid(cfg, c, tr + more) == (Valid(cfg, c, tr) && Valid(cfg, Run(cfg, c, tr), more))
    decreases |tr|
  {
    if tr == [] {
      assert tr + more == more;
    } else {
      assert (tr + more)[1..] == tr[1..] + more;
      RunAppend(cfg, Step(cfg, c, tr[0]), tr[1..], more);
    }
  }

  lemma OneStep(cfg: Config, c: Cell, x: Event)
    ensures Run(cfg, c, [x]) == Step(cfg, c, x) && Valid(cfg, c, [x]) == Enabled(cfg, c, x)
  {
    assert [x][1..] == [];
    assert Run(cfg, Step(cfg, c, x), []) == Step(cfg, c, x) && Valid(cfg, Step(cfg, c, x), []);
  }

  lemma TwoSteps(cfg: Config, c: Cell, x: Event, y: Event)
    ensures Run(cfg, c, [x, y]) == Step(cfg, Step(cfg, c, x), y)
    ensures Valid(cfg, c, [x, y]) == (Enabled(cfg, c, x) && Enabled(cfg, Step(cfg, c, x), y))
  {
    RunAppend(cfg, c, [x], [y]);
    assert [x] + [y] == [x, y];
    OneStep(cfg, c, x);
    OneStep(cfg, Step(cfg, c, x), y);
  }

  /** The group of one alert. */
  ghost predicate OfOne(c: Cell, info: GroupInfo, m: GroupMember) {
    && c.row.Some?
    && c.row.value.channel == info.channel && c.row.value.team == info.team
    && c.row.value.notificationOnly == info.notificationOnly
    && c.row.value.members == map[m.fingerprint := m]
  }

  /** The group of one alert, held by nobody. */
  ghost predicate Lone(c: Cell, info: GroupInfo, m: GroupMember) {
    c.open == map[] && OfOne(c, info, m)
  }

  /** A lone alert is its own bucket, with its own messages. */
  function LoneBucket(m: GroupMember): Bucket {
    Bucket(m.notifiedTargets, [m])
  }

  lemma LoneBucketing(m: GroupMember, threshold: int)
    ensures IsBucketing(map[m.fingerprint := m], threshold, [LoneBucket(m)])
  {
    var members, b, fp := map[m.fingerprint := m], LoneBucket(m), m.fingerprint;
    assert m in b.members && Fps(b.members) == {fp};
    if m.notifiedTargets == [] {
      assert Unsent(members) == {fp};
    } else {
      assert KeyClass(members, TargetKey(b.targets)) == {fp};
    }
    assert 0 <= 0 < |[b]| && fp in Fps([b][0].members);
    assert InSome([b], fp);
  }

  lemma LoneUpsert(cfg: Config, c: Cell, info: GroupInfo, m: GroupMember, e: GroupMember, now: int)
    requires OfOne(c, info, m) && IsEvent(e) && e.fingerprint == m.fingerprint
    ensures var next := Step(cfg, c, Upsert(info, e, now));
      && OfOne(next, info, Merge(m, e)) && next.open == c.open
      && next.log == c.log && Due(next.row.value, now + cfg.debounce)
  { }

  lemma OneBucket(script: Script, style: GroupStyle, channels: seq<string>, b: Bucket, p: Progress)
    ensures AfterBuckets(script, style, channels, [b], p) == AfterBucket(script, style, channels, b, p)
  {
    assert Init([b]) == [];
  }

  lemma LoneStamp(m: GroupMember, targets: seq<NotifiedTarget>, failed: bool)
    ensures Stamp(map[m.fingerprint := m], Fps([m]), targets, failed) == map[m.fingerprint := Stamped(m, targets, failed)]
  {
    assert m in [m] && Fps([m]) == {m.fingerprint};
  }

  lemma LoneSends(script: Script, style: GroupStyle, m: GroupMember, channels: seq<string>, log: seq<Send>)
    requires BucketChanged(LoneBucket(m))
    ensures var sends := Calls(script, style, LoneBucket(m), channels, |log|);
      AfterBuckets(script, style, channels, [LoneBucket(m)], Progress(map[m.fingerprint := m], false, log))
        == Progress(map[m.fingerprint := Stamped(m, Kept(LoneBucket(m), sends), AnyFailed(sends))], AnyFailed(sends), log + sends)
  {
    var sends := Calls(script, style, LoneBucket(m), channels, |log|);
    OneBucket(script, style, channels, LoneBucket(m), Progress(map[m.fingerprint := m], false, log));
    LoneStamp(m, Kept(LoneBucket(m), sends), AnyFailed(sends));
  }
}
