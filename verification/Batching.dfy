/** How the alerts of one group are divided into Slack messages. */
module Batching {
  import opened Prelude
  import opened Members
  import opened Texts

  /** The alerts of one message; targets is empty until it is first sent. */
  datatype Bucket = Bucket(targets: seq<NotifiedTarget>, members: seq<GroupMember>)

  // ---------------------------------------------------------- target key

  function Part(t: NotifiedTarget): string {
    t.channel + "=" + t.ts
  }

  function Parts(ts: seq<NotifiedTarget>): seq<string> {
    if ts == [] then [] else [Part(ts[0])] + Parts(ts[1..])
  }

  function TargetKey(ts: seq<NotifiedTarget>): string {
    if ts == [] then "" else Join(Sort(Parts(ts)), "|")
  }

  method ComputeTargetKey(ts: seq<NotifiedTarget>) returns (key: string)
    ensures key == TargetKey(ts)
  {
    if |ts| == 0 {
      return "";
    }
    var parts := new string[|ts|];
    for i := 0 to |ts|
      invariant parts[..i] == Parts(ts[..i])
    {
      parts[i] := ts[i].channel + "=" + ts[i].ts;
      PartsSnoc(ts[..i], ts[i]);
      assert ts[..i + 1] == ts[..i] + [ts[i]];
    }
    assert ts[..|ts|] == ts && parts[..] == parts[..|ts|];
    key := Join(Sort(parts[..]), "|");
  }

  lemma {:induction false} PartsSnoc(ts: seq<NotifiedTarget>, t: NotifiedTarget)
    ensures Parts(ts + [t]) == Parts(ts) + [Part(t)]
  {
    if ts != [] {
      assert (ts + [t])[1..] == ts[1..] + [t];
      PartsSnoc(ts[1..], t);
    }
  }

  /** The identity of a message inside a group: rule channel and timestamp. */
  datatype MessageId = MessageId(channel: string, ts: string)

  function IdOf(t: NotifiedTarget): MessageId {
    MessageId(t.channel, t.ts)
  }

  function Ids(ts: seq<NotifiedTarget>): seq<MessageId> {
    if ts == [] then [] else [IdOf(ts[0])] + Ids(ts[1..])
  }

  predicate CleanChannel(channel: string) {
    '=' !in channel && '|' !in channel
  }

  predicate CleanTarget(t: NotifiedTarget) {
    CleanChannel(t.channel) && '|' !in t.ts
  }

  predicate Clean(ts: seq<NotifiedTarget>) {
    forall t | t in ts :: CleanTarget(t)
  }

  lemma {:induction false} PartCount(ts: seq<NotifiedTarget>, t: NotifiedTarget)
    requires Clean(ts) && CleanTarget(t)
    ensures multiset(Parts(ts))[Part(t)] == multiset(Ids(ts))[IdOf(t)]
  {
    if ts != [] {
      var u := ts[0];
      assert u in ts;
      PartCount(ts[1..], t);
      assert Part(u) == Part(t) ==> IdOf(u) == IdOf(t) by {
        if Part(u) == Part(t) { FirstCut(u.channel, u.ts, t.channel, t.ts, '='); }
      }
      assert multiset(Parts(ts)) == multiset{Part(u)} + multiset(Parts(ts[1..]));
      assert multiset(Ids(ts)) == multiset{IdOf(u)} + multiset(Ids(ts[1..]));
    }
  }

  lemma {:induction false} IdsMembers(ts: seq<NotifiedTarget>)
    ensures |Ids(ts)| == |ts| == |Parts(ts)|
    ensures forall i | 0 <= i < |ts| :: Ids(ts)[i] == IdOf(ts[i]) && Parts(ts)[i] == Part(ts[i])
  {
    if ts != [] {
      IdsMembers(ts[1..]);
      assert forall i | 1 <= i < |ts| :: ts[i] == ts[1..][i - 1];
    }
  }

  lemma {:induction false} CountsDetermineIds(a: seq<NotifiedTarget>, b: seq<NotifiedTarget>)
    requires Clean(a) && Clean(b)
    requires multiset(Parts(a)) == multiset(Parts(b))
    ensures multiset(Ids(a)) == multiset(Ids(b))
  {
    forall id: MessageId ensures multiset(Ids(a))[id] == multiset(Ids(b))[id] {
      if id in Ids(a) {
        SameIdCount(a, b, id);
      } else if id in Ids(b) {
        SameIdCount(b, a, id);
      }
    }
  }

  lemma SameIdCount(a: seq<NotifiedTarget>, b: seq<NotifiedTarget>, id: MessageId)
    requires Clean(a) && Clean(b) && id in Ids(a)
    requires multiset(Parts(a)) == multiset(Parts(b))
    ensures multiset(Ids(a))[id] == multiset(Ids(b))[id]
  {
    IdsMembers(a);
    var i :| 0 <= i < |a| && Ids(a)[i] == id;
    assert a[i] in a;
    PartCount(a, a[i]);
    PartCount(b, a[i]);
  }

  lemma {:induction false} ConcatIds(a: seq<NotifiedTarget>, b: seq<NotifiedTarget>)
    ensures Ids(a + b) == Ids(a) + Ids(b)
  {
    if a == [] {
      assert a + b == b;
    } else {
      ConcatIds(a[1..], b);
      assert (a + b)[1..] == a[1..] + b && (a + b)[0] == a[0];
    }
  }

  lemma {:induction false} ConcatParts(a: seq<NotifiedTarget>, b: seq<NotifiedTarget>)
    ensures Parts(a + b) == Parts(a) + Parts(b)
  {
    if a == [] {
      assert a + b == b;
    } else {
      ConcatParts(a[1..], b);
      assert (a + b)[1..] == a[1..] + b && (a + b)[0] == a[0];
    }
  }

  lemma OneTarget(t: NotifiedTarget)
    ensures Ids([t]) == [IdOf(t)] && Parts([t]) == [Part(t)]
  {
    assert [t][1..] == [];
    assert Ids([]) == [] && Parts([]) == [];
  }

  lemma RemoveAt(b: seq<NotifiedTarget>, i: nat)
    requires i < |b|
    ensures var rest := b[..i] + b[i + 1..];
      && multiset(Ids(b)) == multiset{IdOf(b[i])} + multiset(Ids(rest))
      && multiset(Parts(b)) == multiset{Part(b[i])} + multiset(Parts(rest))
  {
    var l, x, r := b[..i], [b[i]], b[i + 1..];
    assert b == l + (x + r);
    OneTarget(b[i]);
    assert Ids(b) == Ids(l) + (Ids(x) + Ids(r)) && Ids(l + r) == Ids(l) + Ids(r) by {
      ConcatIds(l, x + r);
      ConcatIds(x, r);
      ConcatIds(l, r);
    }
    assert Parts(b) == Parts(l) + (Parts(x) + Parts(r)) && Parts(l + r) == Parts(l) + Parts(r) by {
      ConcatParts(l, x + r);
      ConcatParts(x, r);
      ConcatParts(l, r);
    }
  }

  lemma HeadCounts(a: seq<NotifiedTarget>)
    requires a != []
    ensures multiset(Ids(a)) == multiset{IdOf(a[0])} + multiset(Ids(a[1..]))
    ensures multiset(Parts(a)) == multiset{Part(a[0])} + multiset(Parts(a[1..]))
    ensures IdOf(a[0]) in multiset(Ids(a))
  { }

  lemma {:induction false} IdsDetermineParts(a: seq<NotifiedTarget>, b: seq<NotifiedTarget>)
    requires multiset(Ids(a)) == multiset(Ids(b))
    ensures multiset(Parts(a)) == multiset(Parts(b))
    decreases |a|
  {
    if a == [] {
      assert |multiset(Ids(b))| == 0;
      IdsMembers(b);
    } else {
      HeadCounts(a);
      var i := FindId(b, IdOf(a[0]));
      RemoveAt(b, i);
      var rest := b[..i] + b[i + 1..];
      CancelOne(IdOf(a[0]), multiset(Ids(a[1..])), multiset(Ids(rest)));
      IdsDetermineParts(a[1..], rest);
    }
  }

  lemma FindId(b: seq<NotifiedTarget>, id: MessageId) returns (i: nat)
    requires id in multiset(Ids(b))
    ensures i < |b| && IdOf(b[i]) == id
  {
    IdsMembers(b);
    var k :| 0 <= k < |Ids(b)| && Ids(b)[k] == id;
    i := k;
  }

  lemma {:induction false} NoBarInParts(ts: seq<NotifiedTarget>)
    requires Clean(ts)
    ensures forall p | p in Parts(ts) :: '|' !in p
  {
    IdsMembers(ts);
    forall p | p in Parts(ts) ensures '|' !in p {
      var i :| 0 <= i < |ts| && Parts(ts)[i] == p;
      assert CleanTarget(ts[i]);
    }
  }

  /** When neither channels nor timestamps contain the separators, the string
      key is equality of the messages as a multiset: it forgets the order of
      the targets and nothing else. */
  lemma TargetKeyExact(a: seq<NotifiedTarget>, b: seq<NotifiedTarget>)
    requires Clean(a) && Clean(b)
    ensures TargetKey(a) == TargetKey(b) <==> multiset(Ids(a)) == multiset(Ids(b))
  {
    IdsMembers(a);
    IdsMembers(b);
    if multiset(Ids(a)) == multiset(Ids(b)) {
      assert |a| == |multiset(Ids(a))| == |multiset(Ids(b))| == |b|;
      IdsDetermineParts(a, b);
      SortPermutation(Parts(a), Parts(b));
    }
    if TargetKey(a) == TargetKey(b) {
      if a != [] && b != [] {
        KeyDeterminesParts(a, b);
        CountsDetermineIds(a, b);
      } else if a != [] {
        KeyNonEmpty(a);
      } else if b != [] {
        KeyNonEmpty(b);
      }
    }
  }

  lemma KeyDeterminesParts(a: seq<NotifiedTarget>, b: seq<NotifiedTarget>)
    requires Clean(a) && Clean(b) && a != [] && b != []
    requires TargetKey(a) == TargetKey(b)
    ensures multiset(Parts(a)) == multiset(Parts(b))
  {
    SortedParts(a);
    SortedParts(b);
    SplitJoin(Sort(Parts(a)), '|');
    SplitJoin(Sort(Parts(b)), '|');
    SortPermutation(Parts(a), Parts(b));
  }

  lemma SortedParts(ts: seq<NotifiedTarget>)
    requires Clean(ts) && ts != []
    ensures Sort(Parts(ts)) != [] && forall p | p in Sort(Parts(ts)) :: '|' !in p
  {
    NoBarInParts(ts);
    SortCorrect(Parts(ts));
    IdsMembers(ts);
    assert |multiset(Sort(Parts(ts)))| == |multiset(Parts(ts))|;
    forall p | p in Sort(Parts(ts)) ensures '|' !in p {
      assert p in multiset(Parts(ts));
    }
  }

  lemma KeyNonEmpty(ts: seq<NotifiedTarget>)
    requires ts != []
    ensures TargetKey(ts) != ""
  {
    var sorted := Sort(Parts(ts));
    SortCorrect(Parts(ts));
    IdsMembers(ts);
    assert |multiset(sorted)| == |multiset(Parts(ts))|;
    assert sorted[0] in multiset(Parts(ts));
    var i :| 0 <= i < |ts| && Parts(ts)[i] == sorted[0];
    assert sorted[0] == Part(ts[i]);
  }

  /** Outside those conditions two different messages can share a key. */
  lemma KeysCollide()
    ensures exists a, b :: TargetKey([a]) == TargetKey([b]) && multiset(Ids([a])) != multiset(Ids([b]))
  {
    var a, b := NotifiedTarget("C=1", "", "2"), NotifiedTarget("C", "", "1=2");
    assert Part(a) == "C=1=2" == Part(b);
    OneTarget(a);
    OneTarget(b);
    assert TargetKey([a]) == TargetKey([b]);
    assert IdOf(a) in multiset(Ids([a])) && IdOf(a) !in multiset(Ids([b]));
  }

  /** Two non-empty target lists with the same key have a message in common. */
  lemma SameKeyShares(a: seq<NotifiedTarget>, b: seq<NotifiedTarget>)
    requires Clean(a) && Clean(b) && a != []
    requires TargetKey(a) == TargetKey(b)
    ensures exists t, u :: t in a && u in b && IdOf(t) == IdOf(u)
  {
    TargetKeyExact(a, b);
    IdsMembers(a);
    IdsMembers(b);
    assert Ids(a)[0] in multiset(Ids(b));
    var i :| 0 <= i < |b| && Ids(b)[i] == Ids(a)[0];
    assert a[0] in a && b[i] in b && IdOf(a[0]) == IdOf(b[i]);
  }

  // ------------------------------------------------------------- buckets

  function Fps(ms: seq<GroupMember>): set<string> {
    set m | m in ms :: m.fingerprint
  }

  predicate NoDupFps(ms: seq<GroupMember>) {
    forall i, j | 0 <= i < j < |ms| :: ms[i].fingerprint != ms[j].fingerprint
  }

  /** The bucket's alerts are distinct stored alerts, as they are stored. */
  predicate Drawn(members: Members, ms: seq<GroupMember>) {
    NoDupFps(ms) && forall m | m in ms :: m.fingerprint in members && members[m.fingerprint] == m
  }

  function Unsent(members: Members): set<string> {
    set fp | fp in members && members[fp].notifiedTargets == []
  }

  function KeyClass(members: Members, key: string): set<string> {
    set fp | fp in members && members[fp].notifiedTargets != [] && TargetKey(members[fp].notifiedTargets) == key
  }

  /** A bucket that stands for a message already sent: all the alerts whose
      targets have its key, and the targets of the first of them. */
  predicate SentBucket(members: Members, b: Bucket) {
    && b.members != [] && b.targets != []
    && Drawn(members, b.members)
    && b.targets == b.members[0].notifiedTargets
    && Fps(b.members) == KeyClass(members, TargetKey(b.targets))
  }

  /** A bucket of alerts never sent: all of them when they outnumber the
      threshold, one of them otherwise. */
  predicate FreshBucket(members: Members, threshold: int, b: Bucket) {
    && b.members != [] && b.targets == []
    && Drawn(members, b.members)
    && Fps(b.members) <= Unsent(members)
    && (if |Unsent(members)| > threshold then Fps(b.members) == Unsent(members) else |b.members| == 1)
  }

  ghost predicate Disjoint(bs: seq<Bucket>) {
    forall i, j | 0 <= i < j < |bs| :: Fps(bs[i].members) !! Fps(bs[j].members)
  }

  ghost predicate InSome(bs: seq<Bucket>, fp: string) {
    exists i :: 0 <= i < |bs| && fp in Fps(bs[i].members)
  }

  /** A legal division of a group, whatever order the maps were walked in. */
  ghost predicate IsBucketing(members: Members, threshold: int, bs: seq<Bucket>) {
    && (forall b | b in bs :: SentBucket(members, b) || FreshBucket(members, threshold, b))
    && Disjoint(bs)
    && (forall fp | fp in members :: InSome(bs, fp))
  }

  predicate BucketChanged(b: Bucket) {
    b.targets == [] || exists m | m in b.members :: m.notifiedStatus != m.status
  }

  method ComputeBucketChanged(b: Bucket) returns (changed: bool)
    ensures changed == BucketChanged(b)
  {
    if |b.targets| == 0 {
      return true;
    }
    for i := 0 to |b.members|
      invariant forall j | 0 <= j < i :: b.members[j].notifiedStatus == b.members[j].status
    {
      if b.members[i].notifiedStatus != b.members[i].status {
        return true;
      }
    }
    return false;
  }

  /** What the first pass has gathered of the alerts outside todo. */
  ghost predicate Gathered(members: Members, todo: set<string>, existing: map<string, Bucket>, unsent: seq<GroupMember>) {
    && Drawn(members, unsent)
    && Fps(unsent) == Unsent(members) - todo
    && (forall key | key in existing :: HalfBucket(members, todo, key, existing[key]))
    && (forall fp | fp in members && fp !in todo && members[fp].notifiedTargets != [] ::
          TargetKey(members[fp].notifiedTargets) in existing)
  }

  predicate HalfBucket(members: Members, todo: set<string>, key: string, b: Bucket) {
    && b.members != [] && b.targets != [] && TargetKey(b.targets) == key
    && Drawn(members, b.members)
    && b.targets == b.members[0].notifiedTargets
    && Fps(b.members) == KeyClass(members, key) - todo
  }

  lemma DrawnSnoc(members: Members, ms: seq<GroupMember>, fp: string)
    requires Drawn(members, ms) && WellKeyed(members) && fp in members && fp !in Fps(ms)
    ensures Drawn(members, ms + [members[fp]])
    ensures Fps(ms + [members[fp]]) == Fps(ms) + {fp}
  {
    var all := ms + [members[fp]];
    forall i, j | 0 <= i < j < |all| ensures all[i].fingerprint != all[j].fingerprint {
      if j == |ms| { assert ms[i] in ms && ms[i].fingerprint in Fps(ms); }
    }
    assert Fps(all) == Fps(ms) + {fp} by {
      forall f | f in Fps(ms) + {fp} ensures f in Fps(all) {
        if f == fp {
          assert all[|ms|] in all;
        } else {
          var m :| m in ms && m.fingerprint == f;
          assert m in all;
        }
      }
    }
  }

  lemma GatherUnsent(members: Members, todo: set<string>, existing: map<string, Bucket>, unsent: seq<GroupMember>, fp: string)
    requires WellKeyed(members) && fp in todo && fp in members && members[fp].notifiedTargets == []
    requires Gathered(members, todo, existing, unsent)
    ensures Gathered(members, todo - {fp}, existing, unsent + [members[fp]])
  {
    DrawnSnoc(members, unsent, fp);
    assert fp in Unsent(members);
    forall key | key in existing ensures HalfBucket(members, todo - {fp}, key, existing[key]) {
      assert fp !in KeyClass(members, key);
      assert KeyClass(members, key) - (todo - {fp}) == KeyClass(members, key) - todo;
    }
  }

  lemma GatherSent(members: Members, todo: set<string>, existing: map<string, Bucket>, unsent: seq<GroupMember>, fp: string)
    requires WellKeyed(members) && fp in todo && fp in members && members[fp].notifiedTargets != []
    requires Gathered(members, todo, existing, unsent)
    ensures var m := members[fp]; var key := TargetKey(m.notifiedTargets);
      var b := if key in existing then existing[key] else Bucket(m.notifiedTargets, []);
      Gathered(members, todo - {fp}, existing[key := b.(members := b.members + [m])], unsent)
  {
    var m := members[fp];
    var key := TargetKey(m.notifiedTargets);
    var b := if key in existing then existing[key] else Bucket(m.notifiedTargets, []);
    var b' := b.(members := b.members + [m]);
    var todo' := todo - {fp};
    if key !in existing {
      assert Fps([]) == {};
      assert KeyClass(members, key) - todo == {} by {
        forall f | f in KeyClass(members, key) ensures f in todo { }
      }
    }
    assert Fps(b.members) == KeyClass(members, key) - todo;
    DrawnSnoc(members, b.members, fp);
    assert fp in KeyClass(members, key);
    assert HalfBucket(members, todo', key, b');
    forall k | k in existing && k != key ensures HalfBucket(members, todo', k, existing[k]) {
      assert fp !in KeyClass(members, k);
      assert KeyClass(members, k) - todo' == KeyClass(members, k) - todo;
    }
    assert fp !in Unsent(members);
    assert Unsent(members) - todo' == Unsent(members) - todo;
  }

  /** The buckets of sent messages, in the order their keys were walked. */
  ghost predicate Listed(existing: map<string, Bucket>, keys: seq<string>, bs: seq<Bucket>) {
    && |keys| == |bs| && NoDup(keys)
    && forall i | 0 <= i < |keys| :: keys[i] in existing && bs[i] == existing[keys[i]]
  }

  lemma SentPart(members: Members, existing: map<string, Bucket>, keys: seq<string>, sent: seq<Bucket>)
    requires (forall key | key in existing :: HalfBucket(members, {}, key, existing[key]))
    requires Listed(existing, keys, sent)
    ensures (forall b | b in sent :: SentBucket(members, b)) && Disjoint(sent)
    ensures forall i | 0 <= i < |sent| :: Fps(sent[i].members) !! Unsent(members)
  {
    forall i | 0 <= i < |sent|
      ensures SentBucket(members, sent[i]) && Fps(sent[i].members) == KeyClass(members, keys[i])
    {
      assert HalfBucket(members, {}, keys[i], existing[keys[i]]);
      assert KeyClass(members, keys[i]) - {} == KeyClass(members, keys[i]);
    }
    forall i, j | 0 <= i < j < |sent| ensures Fps(sent[i].members) !! Fps(sent[j].members) {
      assert keys[i] != keys[j];
      assert KeyClass(members, keys[i]) !! KeyClass(members, keys[j]);
    }
  }

  ghost predicate FreshPart(members: Members, threshold: int, novel: seq<Bucket>) {
    && (forall b | b in novel :: FreshBucket(members, threshold, b))
    && Disjoint(novel)
    && (forall fp | fp in Unsent(members) :: InSome(novel, fp))
  }

  lemma Assemble(members: Members, threshold: int, existing: map<string, Bucket>, keys: seq<string>,
                 sent: seq<Bucket>, novel: seq<Bucket>, unsent: seq<GroupMember>)
    requires Gathered(members, {}, existing, unsent)
    requires Listed(existing, keys, sent) && (forall key | key in existing :: key in keys)
    requires FreshPart(members, threshold, novel)
    ensures IsBucketing(members, threshold, sent + novel)
  {
    var bs := sent + novel;
    SentPart(members, existing, keys, sent);
    forall b | b in bs ensures SentBucket(members, b) || FreshBucket(members, threshold, b) { }
    forall i, j | 0 <= i < j < |bs| ensures Fps(bs[i].members) !! Fps(bs[j].members) {
      if j < |sent| {
        assert bs[i] == sent[i] && bs[j] == sent[j];
      } else if i < |sent| {
        assert bs[i] == sent[i] && bs[j] == novel[j - |sent|] && bs[j] in novel;
      } else {
        assert bs[i] == novel[i - |sent|] && bs[j] == novel[j - |sent|];
      }
    }
    forall fp | fp in members ensures InSome(bs, fp) {
      if members[fp].notifiedTargets == [] {
        assert fp in Unsent(members) && InSome(novel, fp);
        var i :| 0 <= i < |novel| && fp in Fps(novel[i].members);
        assert bs[|sent| + i] == novel[i];
      } else {
        var key := TargetKey(members[fp].notifiedTargets);
        var i :| 0 <= i < |keys| && keys[i] == key;
        assert HalfBucket(members, {}, key, existing[key]);
        assert fp in KeyClass(members, key);
        assert bs[i] == existing[key];
      }
    }
  }

  lemma CombinedPart(members: Members, threshold: int, unsent: seq<GroupMember>)
    requires Drawn(members, unsent) && Fps(unsent) == Unsent(members)
    requires |unsent| > threshold && unsent != []
    ensures FreshPart(members, threshold, [Bucket([], unsent)])
  {
    CountFps(unsent);
    assert [Bucket([], unsent)][0].members == unsent;
  }

  lemma SinglePart(members: Members, threshold: int, unsent: seq<GroupMember>, novel: seq<Bucket>)
    requires Drawn(members, unsent) && Fps(unsent) == Unsent(members)
    requires |unsent| <= threshold || unsent == []
    requires |novel| == |unsent| && forall i | 0 <= i < |novel| :: novel[i] == Bucket([], [unsent[i]])
    ensures FreshPart(members, threshold, novel)
  {
    CountFps(unsent);
    forall i | 0 <= i < |novel| ensures SingleFits(members, unsent, i) {
      SingleBucket(members, unsent, i);
    }
    forall i, j | 0 <= i < j < |novel| ensures Fps(novel[i].members) !! Fps(novel[j].members) {
      assert SingleFits(members, unsent, i) && SingleFits(members, unsent, j);
    }
    forall b | b in novel ensures FreshBucket(members, threshold, b) {
      var i :| 0 <= i < |novel| && novel[i] == b;
      assert SingleFits(members, unsent, i);
    }
    forall fp | fp in Unsent(members) ensures InSome(novel, fp) {
      var i := IndexOf(unsent, fp);
      assert SingleFits(members, unsent, i);
      assert fp in Fps(novel[i].members);
    }
  }

  lemma IndexOf(ms: seq<GroupMember>, fp: string) returns (i: nat)
    requires fp in Fps(ms)
    ensures i < |ms| && ms[i].fingerprint == fp
  {
    var m :| m in ms && m.fingerprint == fp;
    i :| 0 <= i < |ms| && ms[i] == m;
  }

  predicate SingleFits(members: Members, unsent: seq<GroupMember>, i: nat)
    requires i < |unsent|
  {
    && Fps([unsent[i]]) == {unsent[i].fingerprint}
    && Drawn(members, [unsent[i]])
    && unsent[i].fingerprint in Unsent(members)
  }

  lemma SingleBucket(members: Members, unsent: seq<GroupMember>, i: nat)
    requires i < |unsent| && Drawn(members, unsent) && Fps(unsent) == Unsent(members)
    ensures SingleFits(members, unsent, i)
  {
    assert unsent[i] in unsent;
    assert unsent[i].fingerprint in Fps(unsent);
    assert unsent[i] in [unsent[i]];
  }

  lemma FpsSnoc(ms: seq<GroupMember>, m: GroupMember)
    ensures Fps(ms + [m]) == Fps(ms) + {m.fingerprint}
  {
    assert m in ms + [m];
    forall fp | fp in Fps(ms) ensures fp in Fps(ms + [m]) {
      var x :| x in ms && x.fingerprint == fp;
      assert x in ms + [m];
    }
  }

  lemma LastIsNew(ms: seq<GroupMember>)
    requires ms != [] && NoDupFps(ms)
    ensures Last(ms).fingerprint !in Fps(Init(ms))
  {
    forall x | x in Init(ms) ensures x.fingerprint != Last(ms).fingerprint {
      var i :| 0 <= i < |ms| - 1 && Init(ms)[i] == x;
      assert ms[i] == x;
    }
  }

  lemma {:induction false} CountFps(ms: seq<GroupMember>)
    requires NoDupFps(ms)
    ensures |Fps(ms)| == |ms|
  {
    if ms == [] {
      assert Fps(ms) == {};
    } else {
      CountFps(Init(ms));
      LastIsNew(ms);
      FpsSnoc(Init(ms), Last(ms));
      assert ms == Init(ms) + [Last(ms)];
    }
  }

  /** The first walk: alerts by the key of their targets, and those unsent. */
  method GatherMembers(members: Members) returns (existing: map<string, Bucket>, unsent: seq<GroupMember>)
    requires WellKeyed(members)
    ensures Gathered(members, {}, existing, unsent)
  {
    existing, unsent := map[], [];
    var todo := members.Keys;
    while todo != {}
      invariant todo <= members.Keys
      invariant Gathered(members, todo, existing, unsent)
      decreases todo
    {
      var fp :| fp in todo;
      var m := members[fp];
      if |m.notifiedTargets| == 0 {
        GatherUnsent(members, todo, existing, unsent, fp);
        unsent := unsent + [m];
      } else {
        var key := ComputeTargetKey(m.notifiedTargets);
        GatherSent(members, todo, existing, unsent, fp);
        var b := if key in existing then existing[key] else Bucket(m.notifiedTargets, []);
        existing := existing[key := b.(members := b.members + [m])];
      }
      todo := todo - {fp};
    }
  }

  /** The second walk: the buckets of the map, in the order it yields them. */
  method ListBuckets(existing: map<string, Bucket>) returns (buckets: seq<Bucket>, ghost keys: seq<string>)
    ensures Listed(existing, keys, buckets) && forall key | key in existing :: key in keys
  {
    buckets, keys := [], [];
    var rest := existing.Keys;
    while rest != {}
      invariant rest <= existing.Keys
      invariant Listed(existing, keys, buckets)
      invariant forall key | key in existing :: key in keys <==> key !in rest
      decreases rest
    {
      var key :| key in rest;
      buckets := buckets + [existing[key]];
      keys := keys + [key];
      rest := rest - {key};
    }
  }

  /** Both maps are walked in an arbitrary order; whatever it is, the result
      is a legal division of the group. */
  method BuildBuckets(members: Members, threshold: int) returns (buckets: seq<Bucket>)
    requires WellKeyed(members)
    ensures IsBucketing(members, threshold, buckets)
  {
    var existing, unsent := GatherMembers(members);
    ghost var keys;
    buckets, keys := ListBuckets(existing);

    ghost var sent := buckets;
    if |unsent| == 0 {
      SinglePart(members, threshold, unsent, []);
      Assemble(members, threshold, existing, keys, sent, [], unsent);
      assert sent + [] == sent;
    } else if |unsent| > threshold {
      CombinedPart(members, threshold, unsent);
      Assemble(members, threshold, existing, keys, sent, [Bucket([], unsent)], unsent);
      buckets := buckets + [Bucket([], unsent)];
    } else {
      ghost var novel: seq<Bucket> := [];
      for i := 0 to |unsent|
        invariant |novel| == i && buckets == sent + novel
        invariant forall j | 0 <= j < i :: novel[j] == Bucket([], [unsent[j]])
      {
        buckets := buckets + [Bucket([], [unsent[i]])];
        novel := novel + [Bucket([], [unsent[i]])];
      }
      SinglePart(members, threshold, unsent, novel);
      Assemble(members, threshold, existing, keys, sent, novel, unsent);
    }
  }

  // --------------------------------------------------- what a division is

  /** Every alert is in exactly one message; alerts already sent share one
      exactly when their keys agree; alerts never sent share one exactly when
      they outnumber the threshold. */
  lemma BucketsPartition(members: Members, threshold: int, bs: seq<Bucket>, fp: string, i: nat)
    requires IsBucketing(members, threshold, bs) && WellKeyed(members)
    requires fp in members && i < |bs| && fp in Fps(bs[i].members)
    ensures bs[i].members != [] && members[fp] in bs[i].members
    ensures forall j | 0 <= j < |bs| && fp in Fps(bs[j].members) :: j == i
    ensures forall other | other in members && members[fp].notifiedTargets != [] ::
      other in Fps(bs[i].members) <==>
        members[other].notifiedTargets != []
        && TargetKey(members[other].notifiedTargets) == TargetKey(members[fp].notifiedTargets)
    ensures forall other | other in members && members[fp].notifiedTargets == [] ::
      other in Fps(bs[i].members) <==>
        other == fp || (members[other].notifiedTargets == [] && |Unsent(members)| > threshold)
  {
    var b := bs[i];
    assert b in bs;
    assert Drawn(members, b.members);
    var k := IndexOf(b.members, fp);
    assert b.members[k] in b.members && members[fp] == b.members[k];
    forall j | 0 <= j < |bs| && fp in Fps(bs[j].members) ensures j == i { }
    if members[fp].notifiedTargets == [] {
      FreshCompany(members, threshold, b, fp);
    } else {
      assert fp !in Unsent(members);
    }
  }

  lemma FreshCompany(members: Members, threshold: int, b: Bucket, fp: string)
    requires SentBucket(members, b) || FreshBucket(members, threshold, b)
    requires fp in Fps(b.members) && fp in members && members[fp].notifiedTargets == []
    ensures forall other | other in members ::
      other in Fps(b.members) <==>
        other == fp || (members[other].notifiedTargets == [] && |Unsent(members)| > threshold)
  {
    assert fp !in KeyClass(members, TargetKey(b.targets));
    assert fp in Unsent(members);
    if |b.members| == 1 {
      assert b.members == [b.members[0]];
      assert Fps(b.members) == {fp};
      if |Unsent(members)| > threshold { assert Fps(b.members) == Unsent(members); }
    }
  }

  function FreshCount(bs: seq<Bucket>): nat {
    if bs == [] then 0 else FreshCount(Init(bs)) + if Last(bs).targets == [] then 1 else 0
  }

  function FreshFps(bs: seq<Bucket>): set<string> {
    if bs == [] then {} else FreshFps(Init(bs)) + if Last(bs).targets == [] then Fps(Last(bs).members) else {}
  }

  lemma {:induction false} FreshFpsIn(bs: seq<Bucket>, fp: string)
    requires fp in FreshFps(bs)
    ensures exists i :: 0 <= i < |bs| && bs[i].targets == [] && fp in Fps(bs[i].members)
  {
    if fp in FreshFps(Init(bs)) {
      FreshFpsIn(Init(bs), fp);
      var i :| 0 <= i < |bs| - 1 && Init(bs)[i].targets == [] && fp in Fps(Init(bs)[i].members);
      assert bs[i] == Init(bs)[i];
    }
  }

  lemma {:induction false} FreshCounted(members: Members, threshold: int, bs: seq<Bucket>)
    requires forall b | b in bs :: SentBucket(members, b) || FreshBucket(members, threshold, b)
    requires Disjoint(bs)
    ensures FreshFps(bs) <= Unsent(members)
    ensures FreshCount(bs) <= |FreshFps(bs)|
    ensures |Unsent(members)| > threshold && FreshCount(bs) > 0 ==> FreshCount(bs) == 1 && FreshFps(bs) == Unsent(members)
  {
    if bs != [] {
      var prefix, b := Init(bs), Last(bs);
      FreshCounted(members, threshold, prefix);
      if b.targets == [] {
        assert b in bs && FreshBucket(members, threshold, b);
        CountFps(b.members);
        forall fp | fp in FreshFps(prefix) ensures fp !in Fps(b.members) {
          FreshFpsIn(prefix, fp);
          var i :| 0 <= i < |prefix| && prefix[i].targets == [] && fp in Fps(prefix[i].members);
          assert bs[i] == prefix[i] && Fps(bs[i].members) !! Fps(bs[|bs| - 1].members);
        }
        assert |FreshFps(bs)| == |FreshFps(prefix)| + |Fps(b.members)|;
        assert b.members[0].fingerprint in Fps(b.members);
      }
    }
  }

  /** However many alerts arrive unsent, they become at most `threshold`
      messages, or one. */
  lemma FewFreshMessages(members: Members, threshold: int, bs: seq<Bucket>)
    requires IsBucketing(members, threshold, bs)
    ensures FreshCount(bs) <= (if threshold > 1 then threshold else 1)
  {
    FreshCounted(members, threshold, bs);
    SubsetSize(FreshFps(bs), Unsent(members));
  }
}
