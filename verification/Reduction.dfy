/** Many groups, many workers: every serialised interleaving ends where the
    run ends in which each flush happens at once, at its claim. */
module Reduction {
  import opened Prelude
  import opened Batching
  import opened Message
  import opened Slack
  import opened Flush
  import opened Groups
  import opened Protocol

  // ------------------------------------------------------------ one group

  /** No webhook lands between a claim and its save. */
  predicate Undisturbed(m: Mode, tr: seq<Event>)
    decreases |tr|
  {
    tr == [] || ((m.Held? ==> !tr[0].Upsert?) && Undisturbed(NextMode(m, tr[0]), tr[1..]))
  }

  /** When the claim that is open at the start of tr is saved. */
  function SaveTime(tr: seq<Event>): int {
    if tr == [] then 0 else if tr[0].Save? then tr[0].now else SaveTime(tr[1..])
  }

  /** The run with every flush gathered into one step at its claim. */
  function Atomic(tr: seq<Event>): seq<Event> {
    if tr == [] then []
    else match tr[0]
      case Claim(_, now, buckets) => [Flush(now, SaveTime(tr[1..]), buckets)] + Atomic(tr[1..])
      case Work(_) => Atomic(tr[1..])
      case Save(_, _) => Atomic(tr[1..])
      case _ => [tr[0]] + Atomic(tr[1..])
  }

  /** The cursor is where processGroup's loops are after its first buckets and
      some of the calls of the next one. */
  ghost predicate Tracks(cfg: Config, start: seq<Send>, cur: Cursor, log: seq<Send>) {
    && cur.next <= |cur.buckets|
    && var p := ProgressOf(cfg.script, cur.group, cur.buckets[..cur.next], start);
       && cur.members == p.members && cur.failed == p.failed && log == p.log + cur.sends
       && (cur.sends != [] ==>
             && cur.next < |cur.buckets| && BucketChanged(cur.buckets[cur.next])
             && |cur.sends| <= |ChannelsOf(cur.group)|
             && cur.sends == Calls(cfg.script, StyleOf(cur.group), cur.buckets[cur.next], ChannelsOf(cur.group)[..|cur.sends|], |p.log|))
  }

  lemma NextBucket(cfg: Config, g: AlertGroup, buckets: seq<Bucket>, i: nat, log: seq<Send>)
    requires i < |buckets|
    ensures ProgressOf(cfg.script, g, buckets[..i + 1], log)
         == AfterBucket(cfg.script, StyleOf(g), ChannelsOf(g), buckets[i], ProgressOf(cfg.script, g, buckets[..i], log))
  {
    assert Init(buckets[..i + 1]) == buckets[..i] && Last(buckets[..i + 1]) == buckets[i];
  }

  lemma AllCalls(cfg: Config, style: GroupStyle, b: Bucket, channels: seq<string>, n: nat, sends: seq<Send>)
    requires |sends| == |channels|
    requires sends != [] ==> sends == Calls(cfg.script, style, b, channels[..|sends|], n)
    ensures sends == Calls(cfg.script, style, b, channels, n)
  {
    assert channels[..|channels|] == channels;
  }

  lemma TracksSkip(cfg: Config, start: seq<Send>, cur: Cursor, log: seq<Send>)
    requires Tracks(cfg, start, cur, log) && !Finished(cur) && !BucketChanged(cur.buckets[cur.next])
    ensures Tracks(cfg, start, Advance(cfg, cur, log).0, log)
  {
    NextBucket(cfg, cur.group, cur.buckets, cur.next, start);
  }

  lemma TracksCall(cfg: Config, start: seq<Send>, cur: Cursor, log: seq<Send>)
    requires Tracks(cfg, start, cur, log) && !Finished(cur) && BucketChanged(cur.buckets[cur.next])
    requires |cur.sends| < |ChannelsOf(cur.group)|
    ensures var (next, log') := Advance(cfg, cur, log); Tracks(cfg, start, next, log')
  {
    var b, channels, style := cur.buckets[cur.next], ChannelsOf(cur.group), StyleOf(cur.group);
    var p := ProgressOf(cfg.script, cur.group, cur.buckets[..cur.next], start);
    CallsGrow(cfg.script, style, b, channels, p.log, cur.sends);
    var s := SendFor(cfg.script, style, b, channels[|cur.sends|], |log|);
    assert p.log + cur.sends + [s] == p.log + (cur.sends + [s]);
  }

  lemma TracksStamp(cfg: Config, start: seq<Send>, cur: Cursor, log: seq<Send>)
    requires Tracks(cfg, start, cur, log) && !Finished(cur) && BucketChanged(cur.buckets[cur.next])
    requires |cur.sends| == |ChannelsOf(cur.group)|
    ensures Tracks(cfg, start, Advance(cfg, cur, log).0, log)
  {
    var b, channels, style := cur.buckets[cur.next], ChannelsOf(cur.group), StyleOf(cur.group);
    var p := ProgressOf(cfg.script, cur.group, cur.buckets[..cur.next], start);
    var next := Advance(cfg, cur, log).0;
    AllCalls(cfg, style, b, channels, |p.log|, cur.sends);
    assert AfterBucket(cfg.script, style, channels, b, p) == Progress(next.members, next.failed, log);
    NextBucket(cfg, cur.group, cur.buckets, cur.next, start);
    Between(cfg, start, next, log);
  }

  lemma Between(cfg: Config, start: seq<Send>, cur: Cursor, log: seq<Send>)
    requires cur.next <= |cur.buckets| && cur.sends == []
    requires ProgressOf(cfg.script, cur.group, cur.buckets[..cur.next], start) == Progress(cur.members, cur.failed, log)
    ensures Tracks(cfg, start, cur, log)
  {
    assert log + [] == log;
  }

  lemma TracksStep(cfg: Config, start: seq<Send>, cur: Cursor, log: seq<Send>)
    requires Tracks(cfg, start, cur, log) && !Finished(cur)
    ensures var (next, log') := Advance(cfg, cur, log); Tracks(cfg, start, next, log')
  {
    if !BucketChanged(cur.buckets[cur.next]) {
      TracksSkip(cfg, start, cur, log);
    } else if |cur.sends| < |ChannelsOf(cur.group)| {
      TracksCall(cfg, start, cur, log);
    } else {
      TracksStamp(cfg, start, cur, log);
    }
  }

  lemma TracksStart(cfg: Config, r: Row, buckets: seq<Bucket>, log: seq<Send>)
    ensures Tracks(cfg, log, Opened(r, buckets), log)
  {
    assert buckets[..0] == [];
    assert log + [] == log;
  }

  /** A group in the hands of one worker, between claim and save. */
  ghost predicate InFlight(cfg: Config, before: Cell, now: int, buckets: seq<Bucket>, id: nat, c: Cell) {
    && before.open == map[] && before.row.Some?
    && c.open.Keys == {id} && c.since == before.since
    && c.row == Some(Claimed(before.row.value, now, cfg.lease))
    && c.open[id].group == Snapshot("", before.row.value) && c.open[id].buckets == buckets
    && Tracks(cfg, before.log, c.open[id], c.log)
  }

  lemma ClaimTakesOff(cfg: Config, c: Cell, e: Event)
    requires e.Claim? && c.open == map[] && Enabled(cfg, c, e)
    ensures InFlight(cfg, c, e.now, e.buckets, e.id, Step(cfg, c, e))
  {
    TracksStart(cfg, c.row.value, e.buckets, c.log);
  }

  lemma SaveEndsFlush(cfg: Config, before: Cell, now: int, buckets: seq<Bucket>, id: nat, c: Cell, savedAt: int)
    requires InFlight(cfg, before, now, buckets, id, c) && Finished(c.open[id])
    ensures Step(cfg, c, Save(id, savedAt)) == Step(cfg, before, Flush(now, savedAt, buckets))
  {
    var cur := c.open[id];
    assert cur.buckets[..cur.next] == buckets;
    assert cur.sends == [];
    var p := ProgressOf(cfg.script, cur.group, buckets, before.log);
    assert c.log == p.log + [] == p.log;
    assert c.open - {id} == map[];
  }

  lemma {:induction false} CollapseHeld(cfg: Config, before: Cell, now: int, buckets: seq<Bucket>, id: nat, c: Cell, tr: seq<Event>)
    requires InFlight(cfg, before, now, buckets, id, c)
    requires Valid(cfg, c, tr) && ModeAfter(Held(id), tr) == Free && Undisturbed(Held(id), tr)
    ensures var after := Step(cfg, before, Flush(now, SaveTime(tr), buckets));
      Run(cfg, c, tr) == Run(cfg, after, Atomic(tr)) && Valid(cfg, after, Atomic(tr))
    decreases |tr|, 0
  {
    var e := tr[0];
    if NextMode(Held(id), e) == Bad { BadForever(tr[1..]); }
    if e.Work? {
      TracksStep(cfg, before.log, c.open[id], c.log);
      CollapseHeld(cfg, before, now, buckets, id, Step(cfg, c, e), tr[1..]);
    } else {
      SaveEndsFlush(cfg, before, now, buckets, id, c, e.now);
      CollapseFree(cfg, Step(cfg, c, e), tr[1..]);
    }
  }

  lemma {:induction false} CollapseClaim(cfg: Config, c: Cell, tr: seq<Event>)
    requires c.open == map[] && tr != [] && tr[0].Claim?
    requires Valid(cfg, c, tr) && ModeAfter(Free, tr) == Free && Undisturbed(Free, tr)
    ensures Run(cfg, c, tr) == Run(cfg, c, Atomic(tr)) && Valid(cfg, c, Atomic(tr))
    decreases |tr|, 0
  {
    var e, rest := tr[0], tr[1..];
    var f := Flush(e.now, SaveTime(rest), e.buckets);
    assert InFlight(cfg, c, e.now, e.buckets, e.id, Step(cfg, c, e)) by { ClaimTakesOff(cfg, c, e); }
    CollapseHeld(cfg, c, e.now, e.buckets, e.id, Step(cfg, c, e), rest);
    assert Atomic(tr) == [f] + Atomic(rest);
    assert Enabled(cfg, c, f);
    RunCons(cfg, c, f, Atomic(rest));
  }

  lemma {:induction false} CollapseOther(cfg: Config, c: Cell, tr: seq<Event>)
    requires c.open == map[] && tr != [] && (tr[0].Upsert? || tr[0].Cleanup?)
    requires Valid(cfg, c, tr) && ModeAfter(Free, tr) == Free && Undisturbed(Free, tr)
    ensures Run(cfg, c, tr) == Run(cfg, c, Atomic(tr)) && Valid(cfg, c, Atomic(tr))
    decreases |tr|, 0
  {
    CollapseFree(cfg, Step(cfg, c, tr[0]), tr[1..]);
    RunCons(cfg, c, tr[0], Atomic(tr[1..]));
  }

  /** One group: a serialised run ends where its atomic form does. */
  lemma {:induction false} CollapseFree(cfg: Config, c: Cell, tr: seq<Event>)
    requires c.open == map[]
    requires Valid(cfg, c, tr) && ModeAfter(Free, tr) == Free && Undisturbed(Free, tr)
    ensures Run(cfg, c, tr) == Run(cfg, c, Atomic(tr)) && Valid(cfg, c, Atomic(tr))
    decreases |tr|, 1
  {
    if tr != [] {
      if NextMode(Free, tr[0]) == Bad { BadForever(tr[1..]); }
      if tr[0].Claim? {
        CollapseClaim(cfg, c, tr);
      } else {
        CollapseOther(cfg, c, tr);
      }
    }
  }

  lemma RunCons(cfg: Config, c: Cell, e: Event, tr: seq<Event>)
    ensures Run(cfg, c, [e] + tr) == Run(cfg, Step(cfg, c, e), tr)
    ensures Valid(cfg, c, [e] + tr) == (Enabled(cfg, c, e) && Valid(cfg, Step(cfg, c, e), tr))
  {
    assert ([e] + tr)[1..] == tr;
  }

  // ---------------------------------------------------------- many groups

  datatype Labelled = Labelled(key: string, event: Event)

  type System = map<string, Cell>

  /** Each group has its own oracle and its own settings. */
  type Configs = string -> Config

  function At(s: System, key: string): Cell {
    if key in s then s[key] else EMPTY
  }

  function StepAll(cfgs: Configs, s: System, l: Labelled): System {
    s[l.key := Step(cfgs(l.key), At(s, l.key), l.event)]
  }

  function RunAll(cfgs: Configs, s: System, tr: seq<Labelled>): System
    decreases |tr|
  {
    if tr == [] then s else RunAll(cfgs, StepAll(cfgs, s, tr[0]), tr[1..])
  }

  ghost predicate ValidAll(cfgs: Configs, s: System, tr: seq<Labelled>)
    decreases |tr|
  {
    tr == [] ||
    (Enabled(cfgs(tr[0].key), At(s, tr[0].key), tr[0].event) && ValidAll(cfgs, StepAll(cfgs, s, tr[0]), tr[1..]))
  }

  /** The steps of one group. */
  function Project(tr: seq<Labelled>, key: string): seq<Event> {
    if tr == [] then []
    else if tr[0].key == key then [tr[0].event] + Project(tr[1..], key)
    else Project(tr[1..], key)
  }

  lemma StepsCommute(cfgs: Configs, s: System, a: Labelled, b: Labelled)
    requires a.key != b.key
    ensures StepAll(cfgs, StepAll(cfgs, s, a), b) == StepAll(cfgs, StepAll(cfgs, s, b), a)
    ensures Enabled(cfgs(b.key), At(s, b.key), b.event) == Enabled(cfgs(b.key), At(StepAll(cfgs, s, a), b.key), b.event)
  { }

  lemma {:induction false} Local(cfgs: Configs, s: System, tr: seq<Labelled>, key: string)
    ensures At(RunAll(cfgs, s, tr), key) == Run(cfgs(key), At(s, key), Project(tr, key))
    ensures ValidAll(cfgs, s, tr) ==> Valid(cfgs(key), At(s, key), Project(tr, key))
    decreases |tr|
  {
    if tr != [] {
      Local(cfgs, StepAll(cfgs, s, tr[0]), tr[1..], key);
      if tr[0].key == key { RunCons(cfgs(key), At(s, key), tr[0].event, Project(tr[1..], key)); }
    }
  }

  lemma {:induction false} ValidIfLocally(cfgs: Configs, s: System, tr: seq<Labelled>)
    requires forall key :: Valid(cfgs(key), At(s, key), Project(tr, key))
    ensures ValidAll(cfgs, s, tr)
    decreases |tr|
  {
    if tr != [] {
      var l := tr[0];
      var next := StepAll(cfgs, s, l);
      RunCons(cfgs(l.key), At(s, l.key), l.event, Project(tr[1..], l.key));
      assert Valid(cfgs(l.key), At(s, l.key), Project(tr, l.key));
      forall key ensures Valid(cfgs(key), At(next, key), Project(tr[1..], key)) {
        assert Valid(cfgs(key), At(s, key), Project(tr, key));
      }
      ValidIfLocally(cfgs, next, tr[1..]);
    }
  }

  function SaveTimeOf(tr: seq<Labelled>, key: string): int {
    if tr == [] then 0
    else if tr[0].key == key && tr[0].event.Save? then tr[0].event.now
    else SaveTimeOf(tr[1..], key)
  }

  /** The interleaved run with every flush moved to its claim. */
  function AtomicAll(tr: seq<Labelled>): seq<Labelled> {
    if tr == [] then []
    else match tr[0].event
      case Claim(_, now, buckets) =>
        [Labelled(tr[0].key, Flush(now, SaveTimeOf(tr[1..], tr[0].key), buckets))] + AtomicAll(tr[1..])
      case Work(_) => AtomicAll(tr[1..])
      case Save(_, _) => AtomicAll(tr[1..])
      case _ => [tr[0]] + AtomicAll(tr[1..])
  }

  lemma {:induction false} SaveTimeLocal(tr: seq<Labelled>, key: string)
    ensures SaveTimeOf(tr, key) == SaveTime(Project(tr, key))
  {
    if tr != [] {
      SaveTimeLocal(tr[1..], key);
      assert ([tr[0].event] + Project(tr[1..], key))[1..] == Project(tr[1..], key);
    }
  }

  lemma ProjectCons(l: Labelled, tr: seq<Labelled>, key: string)
    ensures Project([l] + tr, key) == (if l.key == key then [l.event] else []) + Project(tr, key)
  {
    assert ([l] + tr)[1..] == tr;
  }

  lemma {:induction false} AtomicLocal(tr: seq<Labelled>, key: string)
    ensures Project(AtomicAll(tr), key) == Atomic(Project(tr, key))
  {
    if tr != [] {
      var l, rest := tr[0], tr[1..];
      AtomicLocal(rest, key);
      SaveTimeLocal(rest, key);
      assert ([l.event] + Project(rest, key))[1..] == Project(rest, key);
      match l.event
      case Claim(_, now, buckets) =>
        ProjectCons(Labelled(l.key, Flush(now, SaveTimeOf(rest, l.key), buckets)), AtomicAll(rest), key);
      case Work(_) =>
      case Save(_, _) =>
      case _ => ProjectCons(l, AtomicAll(rest), key);
    }
  }

  /** Any valid interleaving of webhooks, workers and cleanups over any number
      of groups, in which nothing of a group comes between its claims and
      their saves, leaves every group with the same row and the same Slack log
      as the valid run in which each flush is one step at its claim. */
  lemma InterleavingIsAtomic(cfgs: Configs, tr: seq<Labelled>)
    requires ValidAll(cfgs, map[], tr)
    requires forall key :: ModeAfter(Free, Project(tr, key)) == Free && Undisturbed(Free, Project(tr, key))
    ensures ValidAll(cfgs, map[], AtomicAll(tr))
    ensures forall key :: At(RunAll(cfgs, map[], tr), key) == At(RunAll(cfgs, map[], AtomicAll(tr)), key)
  {
    forall key
      ensures Valid(cfgs(key), At(map[], key), Project(AtomicAll(tr), key))
      ensures At(RunAll(cfgs, map[], tr), key) == At(RunAll(cfgs, map[], AtomicAll(tr)), key)
    {
      Local(cfgs, map[], tr, key);
      Local(cfgs, map[], AtomicAll(tr), key);
      AtomicLocal(tr, key);
      CollapseFree(cfgs(key), EMPTY, Project(tr, key));
    }
    ValidIfLocally(cfgs, map[], AtomicAll(tr));
  }
}
