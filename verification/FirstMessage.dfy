/** The ordinary case, from nothing: an alert fires, waits for its debounce,
    and is posted once to each channel of its rule. */
module FirstMessage {
  import opened Prelude
  import opened Members
  import opened Batching
  import opened Channels
  import opened Message
  import opened Slack
  import opened Flush
  import opened Groups
  import opened Protocol
  import opened Single
  import opened Serialised
  import opened Reduction
  import opened Convergence

  /** Slack accepts the first post to every channel, as distinct messages. */
  ghost predicate AcceptsFirst(script: Script, style: GroupStyle, m: GroupMember, channels: seq<string>) {
    var sends := Calls(script, style, LoneBucket(m), channels, 0);
    !AnyFailed(sends) && SaneSlack(sends)
  }

  lemma FirstFlush(cfg: Config, info: GroupInfo, e: GroupMember, c: Cell, now: int)
    requires Lone(c, info, e) && c.log == [] && Due(c.row.value, now) && e.notifiedTargets == []
    requires AcceptsFirst(cfg.script, GroupStyle(info.team, info.notificationOnly), e, ChannelList(info.channel))
    ensures var f := Flush(now, now, [LoneBucket(e)]); var done := Step(cfg, c, f);
      && Enabled(cfg, c, f) && done.open == map[] && done.row.Some? && !done.row.value.dirty
      && done.row.value.members.Keys == {e.fingerprint} && done.row.value.members[e.fingerprint].notifiedStatus == e.status
      && done.log == Calls(cfg.script, GroupStyle(info.team, info.notificationOnly), LoneBucket(e), ChannelList(info.channel), 0)
  {
    LoneBucketing(e, cfg.threshold);
    LoneSends(cfg.script, GroupStyle(info.team, info.notificationOnly), e, ChannelList(info.channel), []);
  }

  /** The first event of an alert is followed by a serialised run in which one
      worker posts it once to every channel, in order, and which ends with a
      clean row. */
  lemma FirstEventIsPosted(cfg: Config, info: GroupInfo, e: GroupMember, t: int) returns (tr: seq<Event>)
    requires IsEvent(e) && e.status != "" && Trackable(info.channel)
    requires AcceptsFirst(cfg.script, GroupStyle(info.team, info.notificationOnly), e, ChannelList(info.channel))
    ensures tr != [] && tr[0] == Upsert(info, e, t) && SerialRun(cfg, EMPTY, Free, tr) && ModeAfter(Free, tr) == Free
    ensures var c, channels := Run(cfg, EMPTY, tr), ChannelList(info.channel);
      && c.open == map[] && c.row.Some? && !c.row.value.dirty
      && c.row.value.members.Keys == {e.fingerprint} && c.row.value.members[e.fingerprint].notifiedStatus == e.status
      && |c.log| == |channels|
      && forall i | 0 <= i < |channels| :: PostedOk(c.log[i]) && c.log[i].channel == channels[i] && c.log[i].members == [e]
  {
    var up, now, buckets := Upsert(info, e, t), t + cfg.debounce, [LoneBucket(e)];
    var c1 := FirstUpsert(cfg, info, e, t);
    FirstFlush(cfg, info, e, c1, now);
    var rest := FlushIsARun(cfg, c1, now, now, buckets);
    tr := [up] + rest;
    RunCons(cfg, EMPTY, up, rest);
    assert tr[1..] == rest;
    Posts(cfg.script, GroupStyle(info.team, info.notificationOnly), e, ChannelList(info.channel));
  }

  lemma FirstUpsert(cfg: Config, info: GroupInfo, e: GroupMember, t: int) returns (c: Cell)
    requires IsEvent(e)
    ensures c == Step(cfg, EMPTY, Upsert(info, e, t)) && Enabled(cfg, EMPTY, Upsert(info, e, t))
    ensures Lone(c, info, e) && c.log == [] && Due(c.row.value, t + cfg.debounce)
  {
    c := Step(cfg, EMPTY, Upsert(info, e, t));
  }

  lemma Posts(script: Script, style: GroupStyle, e: GroupMember, channels: seq<string>)
    requires AcceptsFirst(script, style, e, channels) && e.notifiedTargets == []
    ensures var sends := Calls(script, style, LoneBucket(e), channels, 0);
      && |sends| == |channels|
      && forall i | 0 <= i < |channels| :: PostedOk(sends[i]) && sends[i].channel == channels[i] && sends[i].members == [e]
  {
    var sends := Calls(script, style, LoneBucket(e), channels, 0);
    forall i | 0 <= i < |channels| ensures PostedOk(sends[i]) && sends[i].channel == channels[i] && sends[i].members == [e] {
      assert sends[i] in sends && !sends[i].outcome.Failed?;
      assert sends[i] == SendFor(script, style, LoneBucket(e), channels[i], 0 + i);
    }
  }
}
