/** Which alerts go together, which rules take them, and what is stored of
    them, by the labels alone. */
module Routing {
  import opened Prelude
  import opened Texts
  import opened Members
  import opened Groups
  import opened Channels
  import opened Rules

  // ----------------------------------------------------------- group keys

  /** The labels a rule groups by. */
  function Grouping(r: Rule): seq<string> {
    if r.groupBy == [] then ["alertname"] else r.groupBy
  }

  /** Two label maps say the same of a label; a missing one is empty. */
  predicate SameAt(a: map<string, string>, b: map<string, string>, k: string) {
    (if k in a then a[k] else "") == (if k in b then b[k] else "")
  }

  /** The separator of the key's parts is not used inside them. */
  predicate PlainLabels(r: Rule, labels: map<string, string>) {
    forall k | k in Grouping(r) :: ',' !in k && (k in labels ==> ',' !in labels[k])
  }

  lemma PartsPlain(r: Rule, labels: map<string, string>)
    requires PlainLabels(r, labels)
    ensures var parts := KeyParts(Sort(Grouping(r)), labels); parts != [] && forall p | p in parts :: ',' !in p
  {
    var keys := Sort(Grouping(r));
    SortCorrect(Grouping(r));
    KeyPartsAt(keys, labels);
    assert |keys| == |multiset(keys)| == |multiset(Grouping(r))| == |Grouping(r)|;
    forall p | p in KeyParts(keys, labels) ensures ',' !in p {
      var i :| 0 <= i < |keys| && KeyParts(keys, labels)[i] == p;
      assert keys[i] in multiset(keys) && keys[i] in Grouping(r);
    }
  }

  lemma SamePartsSameAt(r: Rule, a: map<string, string>, b: map<string, string>, k: string)
    requires KeyParts(Sort(Grouping(r)), a) == KeyParts(Sort(Grouping(r)), b) && k in Grouping(r)
    ensures SameAt(a, b, k)
  {
    var keys := Sort(Grouping(r));
    SortCorrect(Grouping(r));
    KeyPartsAt(keys, a);
    KeyPartsAt(keys, b);
    assert k in multiset(Grouping(r)) && k in multiset(keys);
    var i :| 0 <= i < |keys| && keys[i] == k;
    SameTail(keys[i] + "=", LabelAt(a, k), LabelAt(b, k));
    assert KeyParts(keys, a)[i] == KeyParts(keys, b)[i];
  }

  lemma SameTail(front: string, x: string, y: string)
    requires front + x == front + y
    ensures x == y
  {
    assert x == (front + x)[|front|..] && y == (front + y)[|front|..];
  }

  /** Two alerts are in one group of a rule if and only if they agree on every
      label the rule groups by. */
  lemma GroupsByLabels(r: Rule, a: map<string, string>, b: map<string, string>)
    requires PlainLabels(r, a) && PlainLabels(r, b)
    ensures KeyPreimage(r, a) == KeyPreimage(r, b) <==> forall k | k in Grouping(r) :: SameAt(a, b, k)
  {
    var pa, pb := KeyParts(Sort(Grouping(r)), a), KeyParts(Sort(Grouping(r)), b);
    if KeyPreimage(r, a) == KeyPreimage(r, b) {
      SameTail(r.name + "|" + r.channel + "|", Join(pa, ","), Join(pb, ","));
      PartsPlain(r, a);
      PartsPlain(r, b);
      SplitJoin(pa, ',');
      SplitJoin(pb, ',');
      forall k | k in Grouping(r) ensures SameAt(a, b, k) { SamePartsSameAt(r, a, b, k); }
    }
    if forall k | k in Grouping(r) :: SameAt(a, b, k) {
      forall k | k in Grouping(r) ensures LabelAt(a, k) == LabelAt(b, k) { assert SameAt(a, b, k); }
      SameLabelsSameGroup(r, a, b);
    }
  }

  // -------------------------------------------------------------- routing

  /** Every label the rule asks for is there, with the value it asks for. */
  predicate Asked(r: Rule, labels: map<string, string>) {
    forall k | k in r.matchLabels :: k in labels && labels[k] == r.matchLabels[k]
  }

  /** A rule that asks for something else leaves the table alone. */
  lemma OthersPass(rows: Rows, r: Rule, a: Incoming, debounce: int, maxWindow: int, now: int)
    requires !Asked(r, a.labels)
    ensures Ingested(rows, [r], a, debounce, maxWindow, now) == rows
  {
    assert Init([r]) == [];
  }

  /** What an event leaves of an optional text. */
  function OrBefore(text: string, before: string): string {
    if text == "" then before else text
  }

  /** The stored alert after a rule took it: what the alert says now, and what
      an earlier event said where it says nothing. */
  ghost predicate StoredFor(r: Rule, a: Incoming, now: int, was: GroupMember, m: GroupMember) {
    && m.fingerprint == a.fingerprint && m.alertname == a.alertname && m.startsAt == a.startsAt && m.updatedAt == now
    && m.status == (if r.notificationOnly then "resolved" else a.status)
    && m.target == OrBefore(if r.targetLabel != "" && r.targetLabel in a.labels then a.labels[r.targetLabel] else "", was.target)
    && m.endsAt == (if a.endsAt.Some? then a.endsAt else was.endsAt)
    && m.displayTitle == OrBefore(a.displayTitle, was.displayTitle)
    && m.displayFields == (if a.displayFields != [] then a.displayFields else was.displayFields)
    && m.notifiedTargets == was.notifiedTargets && m.notifiedStatus == was.notifiedStatus
  }

  lemma EventIsStored(members: Members, r: Rule, a: Incoming, now: int)
    ensures var after := Recorded(members, EventFor(r, a, now));
      && after.Keys == members.Keys + {a.fingerprint}
      && (forall fp | fp in members && fp != a.fingerprint :: after[fp] == members[fp])
      && StoredFor(r, a, now, Stored(members, a.fingerprint), after[a.fingerprint])
  { }

  /** A rule that gets what it asks for stores the alert in the group of its
      labels, with the rule's team and style, and touches nothing else. */
  lemma RuleTakes(rows: Rows, r: Rule, a: Incoming, debounce: int, maxWindow: int, now: int)
    requires Asked(r, a.labels)
    ensures var after, key := Ingested(rows, [r], a, debounce, maxWindow, now), KeyPreimage(r, a.labels);
      && after.Keys == rows.Keys + {key} && (forall k | k in rows && k != key :: after[k] == rows[k])
      && Takes(if key in rows then Some(rows[key]) else None, after[key], r, a, now)
  {
    assert Init([r]) == [];
    var key := KeyPreimage(r, a.labels);
    EventIsStored(if key in rows then rows[key].members else map[], r, a, now);
  }

  /** The row after a rule took the alert, by the row before it. */
  ghost predicate Takes(before: Option<Row>, after: Row, r: Rule, a: Incoming, now: int) {
    var members := if before.Some? then before.value.members else map[];
    && after.team == r.team && after.notificationOnly == r.notificationOnly
    && after.channel == (if before.Some? then before.value.channel else r.channel)
    && after.members.Keys == members.Keys + {a.fingerprint}
    && (forall fp | fp in members && fp != a.fingerprint :: after.members[fp] == members[fp])
    && StoredFor(r, a, now, Stored(members, a.fingerprint), after.members[a.fingerprint])
  }

  /** Rules are taken one after the other. */
  lemma {:induction false} RulesInTurn(rows: Rows, rules: seq<Rule>, more: seq<Rule>, a: Incoming, debounce: int, maxWindow: int, now: int)
    ensures Ingested(rows, rules + more, a, debounce, maxWindow, now)
      == Ingested(Ingested(rows, rules, a, debounce, maxWindow, now), more, a, debounce, maxWindow, now)
    decreases |more|
  {
    if more == [] {
      assert rules + more == rules;
    } else {
      assert Init(rules + more) == rules + Init(more) && Last(rules + more) == Last(more);
      RulesInTurn(rows, rules, Init(more), a, debounce, maxWindow, now);
    }
  }

  /** Alerts that differ on a label the rule groups by are stored under
      different keys: the second leaves the group of the first as it was. */
  lemma DifferentAlertsApart(rows: Rows, r: Rule, a: Incoming, b: Incoming, debounce: int, maxWindow: int, now: int, later: int, k: string)
    requires PlainLabels(r, a.labels) && PlainLabels(r, b.labels) && Asked(r, a.labels) && Asked(r, b.labels)
    requires k in Grouping(r) && !SameAt(a.labels, b.labels, k)
    ensures var first := Ingested(rows, [r], a, debounce, maxWindow, now);
      var second := Ingested(first, [r], b, debounce, maxWindow, later);
      var ka, kb := KeyPreimage(r, a.labels), KeyPreimage(r, b.labels);
      && ka != kb && ka in second && second[ka] == first[ka] && a.fingerprint in second[ka].members
      && kb in second && b.fingerprint in second[kb].members
  {
    GroupsByLabels(r, a.labels, b.labels);
    RuleTakes(rows, r, a, debounce, maxWindow, now);
    RuleTakes(Ingested(rows, [r], a, debounce, maxWindow, now), r, b, debounce, maxWindow, later);
  }

  /** With the separator inside a value different labels can share a group. */
  lemma LabelsCollide(r: Rule, x: string, y: string)
    requires r.groupBy == [x, y] && Sort([x, y]) == [x, y] && x != y
    ensures var a, b := map[x := "1," + y + "=2", y := "3"], map[x := "1", y := "2," + y + "=3"];
      KeyPreimage(r, a) == KeyPreimage(r, b) && !SameAt(a, b, x)
  {
    var a, b := map[x := "1," + y + "=2", y := "3"], map[x := "1", y := "2," + y + "=3"];
    TwoParts(r, x, y, a);
    TwoParts(r, x, y, b);
    SameText(x, y);
    assert |a[x]| > |b[x]|;
  }

  lemma SameText(x: string, y: string)
    ensures x + "=" + ("1," + y + "=2") + "," + (y + "=" + "3") == x + "=" + "1" + "," + (y + "=" + ("2," + y + "=3"))
  { }

  lemma TwoParts(r: Rule, x: string, y: string, labels: map<string, string>)
    requires r.groupBy == [x, y] && Sort([x, y]) == [x, y] && x in labels && y in labels
    ensures KeyPreimage(r, labels) == r.name + "|" + r.channel + "|" + (x + "=" + labels[x] + "," + (y + "=" + labels[y]))
  {
    assert Init([x, y]) == [x] && Init([x]) == [];
    assert KeyParts([x], labels) == [x + "=" + labels[x]];
    assert KeyParts([x, y], labels) == [x + "=" + labels[x], y + "=" + labels[y]];
    JoinTwo(x + "=" + labels[x], y + "=" + labels[y]);
  }

  lemma JoinTwo(p: string, q: string)
    ensures Join([p, q], ",") == p + "," + q
  {
    assert [p, q][1..] == [q] && [q][1..] == [];
  }
}
