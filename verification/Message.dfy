/** The Slack card of one bucket.  Text that only decorates (times, colours,
    number formatting) is kept as the value it shows. */
module Message {
  import opened Prelude
  import opened Texts
  import opened Members

  /** The rule-level part of a message. */
  datatype GroupStyle = GroupStyle(team: string, notificationOnly: bool)

  const MAX_MEMBER_LINES := 20

  datatype Tally = NoTally | Notices(total: nat) | Counts(firing: nat, resolved: nat)

  /** The title: an optional RESOLVED marker, a name, and for a batch how many
      alerts it stands for. */
  datatype Header = Header(resolvedMark: bool, name: string, tally: Tally)

  datatype Line = Alert(text: string, resolvedSuffix: bool) | AndMore(count: int)

  datatype Field =
    | Team(team: string)
    | Target(target: string)
    | TargetsAffected(count: nat)
    | StartedAt(start: int)
    | ResolvedAt(end: int)
    | Extra(title: string, value: string)
    | Alerts(total: nat, lines: seq<Line>)

  datatype Card = Card(green: bool, header: Header, fields: seq<Field>)

  function MemberTitle(m: GroupMember): string {
    if m.displayTitle != "" then m.displayTitle else m.alertname
  }

  predicate IsResolved(m: GroupMember) {
    m.status == "resolved"
  }

  // ----------------------------------------------------- what a card says

  function ResolvedCount(ms: seq<GroupMember>): nat {
    if ms == [] then 0 else ResolvedCount(Init(ms)) + if IsResolved(Last(ms)) then 1 else 0
  }

  function FiringCount(ms: seq<GroupMember>): nat {
    if ms == [] then 0 else FiringCount(Init(ms)) + if IsResolved(Last(ms)) then 0 else 1
  }

  function Titles(ms: seq<GroupMember>): set<string> {
    set m | m in ms :: MemberTitle(m)
  }

  function Labels(ms: seq<GroupMember>): set<string> {
    set m | m in ms && m.target != "" :: m.target
  }

  /** The least start that is not the zero time; zero when there is none. */
  ghost predicate IsEarliest(ms: seq<GroupMember>, t: int) {
    && (forall m | m in ms && m.startsAt != 0 :: t != 0 && t <= m.startsAt)
    && (t != 0 ==> exists m :: m in ms && m.startsAt == t)
  }

  /** The greatest end of a resolved alert; zero when none is after it. */
  ghost predicate IsLatest(ms: seq<GroupMember>, t: int) {
    && t >= 0
    && (forall m | m in ms && IsResolved(m) && m.endsAt.Some? :: m.endsAt.value <= t)
    && (t != 0 ==> exists m :: m in ms && IsResolved(m) && m.endsAt == Some(t))
  }

  function LabelOf(m: GroupMember): string {
    if m.target != "" then m.target else MemberTitle(m)
  }

  function LineOf(m: GroupMember, notificationOnly: bool): Line {
    Alert(LabelOf(m), !notificationOnly && IsResolved(m))
  }

  /** The alerts in the given order, at most twenty, then how many are left. */
  function Lines(order: seq<GroupMember>, notificationOnly: bool): seq<Line> {
    var shown := if |order| > MAX_MEMBER_LINES then MAX_MEMBER_LINES else |order|;
    seq(shown, i requires 0 <= i < shown => LineOf(order[i], notificationOnly))
    + (if |order| > MAX_MEMBER_LINES then [AndMore(|order| - MAX_MEMBER_LINES)] else [])
  }

  function AllResolvedCard(ms: seq<GroupMember>): bool {
    ms != [] && FiringCount(ms) == 0
  }

  ghost function BatchHeader(style: GroupStyle, ms: seq<GroupMember>): Header {
    var name := Join(SortedList(Titles(ms)), ", ");
    if style.notificationOnly then Header(false, name, Notices(|ms|))
    else Header(AllResolvedCard(ms), name, Counts(FiringCount(ms), ResolvedCount(ms)))
  }

  function TeamFields(style: GroupStyle): seq<Field> {
    if style.team != "" then [Team(style.team)] else []
  }

  ghost function TargetFieldsOf(targets: set<string>): seq<Field> {
    match |targets|
    case 0 => []
    case 1 => [Target(Join(SortedList(targets), ", "))]
    case n => [TargetsAffected(n)]
  }

  ghost function TargetFields(ms: seq<GroupMember>): seq<Field> {
    TargetFieldsOf(Labels(ms))
  }

  function TimeFields(style: GroupStyle, allResolved: bool, earliest: int, latest: int): seq<Field> {
    var start := if earliest != 0 then [StartedAt(earliest)] else [];
    var end := if allResolved && latest != 0 then [ResolvedAt(latest)] else [];
    if style.notificationOnly then [] else start + end
  }

  function AlertFields(style: GroupStyle, order: seq<GroupMember>): seq<Field> {
    if order == [] then [] else [Alerts(|order|, Lines(order, style.notificationOnly))]
  }

  /** Everything but the list of alerts is fixed by the alerts as a whole. */
  ghost predicate IsSummary(style: GroupStyle, ms: seq<GroupMember>, summary: Card) {
    && summary.header == BatchHeader(style, ms)
    && summary.green == (!style.notificationOnly && AllResolvedCard(ms))
    && exists earliest, latest :: IsEarliest(ms, earliest) && IsLatest(ms, latest) &&
         summary.fields == TeamFields(style) + TargetFields(ms) + TimeFields(style, AllResolvedCard(ms), earliest, latest)
  }

  predicate ByStart(ms: seq<GroupMember>) {
    forall i, j | 0 <= i < j < |ms| :: ms[i].startsAt <= ms[j].startsAt
  }

  ghost predicate IsOrder(order: seq<GroupMember>, ms: seq<GroupMember>) {
    multiset(order) == multiset(ms) && ByStart(order)
  }

  /** The cards sort.Slice may lead to: the summary, then the alerts in an
      order by start. */
  ghost predicate IsBatchCard(style: GroupStyle, ms: seq<GroupMember>, card: Card) {
    exists summary, order :: IsSummary(style, ms, summary) && IsOrder(order, ms)
      && card == summary.(fields := summary.fields + AlertFields(style, order))
  }

  function IndividualCard(style: GroupStyle, m: GroupMember): Card {
    var resolved := !style.notificationOnly && IsResolved(m);
    Card(resolved, Header(resolved, MemberTitle(m), NoTally),
      TeamFields(style) + TargetField(m) + LifeFields(style, m) + ExtraFields(m.displayFields))
  }

  function TargetField(m: GroupMember): seq<Field> {
    if m.target != "" then [Target(m.target)] else []
  }

  function LifeFields(style: GroupStyle, m: GroupMember): seq<Field> {
    var end := if IsResolved(m) && m.endsAt.Some? then [ResolvedAt(m.endsAt.value)] else [];
    if style.notificationOnly then [] else [StartedAt(m.startsAt)] + end
  }

  function ExtraFields(fs: seq<MemberField>): seq<Field> {
    if fs == [] then [] else ExtraFields(Init(fs)) + [Extra(Last(fs).title, Last(fs).value)]
  }

  // ------------------------------------------------- loops of the renderer

  method RenderIndividual(style: GroupStyle, m: GroupMember) returns (card: Card)
    ensures card == IndividualCard(style, m)
  {
    var header := Header(false, MemberTitle(m), NoTally);
    var green := false;
    if !style.notificationOnly && m.status == "resolved" {
      green := true;
      header := header.(resolvedMark := true);
    }
    var fields := [];
    if style.team != "" {
      fields := fields + [Team(style.team)];
    }
    if m.target != "" {
      fields := fields + [Target(m.target)];
    }
    assert fields == TeamFields(style) + TargetField(m);
    ghost var before := fields;
    if !style.notificationOnly {
      fields := fields + [StartedAt(m.startsAt)];
      if m.status == "resolved" && m.endsAt.Some? {
        fields := fields + [ResolvedAt(m.endsAt.value)];
      }
    }
    assert fields == before + LifeFields(style, m);
    fields := AppendExtras(fields, m.displayFields);
    card := Card(green, header, fields);
  }

  method AppendExtras(fields: seq<Field>, extras: seq<MemberField>) returns (all: seq<Field>)
    ensures all == fields + ExtraFields(extras)
  {
    all := fields;
    for i := 0 to |extras|
      invariant all == fields + ExtraFields(extras[..i])
    {
      all := all + [Extra(extras[i].title, extras[i].value)];
      assert Init(extras[..i + 1]) == extras[..i];
    }
    assert extras[..|extras|] == extras;
  }

  method MemberLines(order: seq<GroupMember>, notificationOnly: bool) returns (lines: seq<Line>)
    ensures lines == Lines(order, notificationOnly)
  {
    lines := [];
    for i := 0 to |order|
      invariant i <= MAX_MEMBER_LINES
      invariant lines == seq(i, j requires 0 <= j < i => LineOf(order[j], notificationOnly))
    {
      if i >= MAX_MEMBER_LINES {
        lines := lines + [AndMore(|order| - MAX_MEMBER_LINES)];
        return;
      }
      var caption := order[i].target;
      if caption == "" && order[i].displayTitle != "" {
        caption := order[i].displayTitle;
      }
      if caption == "" {
        caption := order[i].alertname;
      }
      lines := lines + [Alert(caption, !notificationOnly && order[i].status == "resolved")];
    }
  }

  method JoinSorted(s: set<string>) returns (text: string)
    ensures text == Join(SortedList(s), ", ")
  {
    var keys: seq<string> := [];
    var rest := s;
    while rest != {}
      invariant rest <= s
      invariant NoDup(keys) && (forall k :: k in keys <==> k in s && k !in rest)
      decreases rest
    {
      var k :| k in rest;
      keys := keys + [k];
      rest := rest - {k};
    }
    SortedListing(s, keys);
    text := Join(Sort(keys), ", ");
  }

  lemma InsertedByStart(order: seq<GroupMember>, k: nat, m: GroupMember)
    requires ByStart(order) && k <= |order|
    requires (forall j | 0 <= j < k :: order[j].startsAt <= m.startsAt) && (k < |order| ==> m.startsAt <= order[k].startsAt)
    ensures ByStart(order[..k] + [m] + order[k..])
    ensures multiset(order[..k] + [m] + order[k..]) == multiset(order) + multiset{m}
  {
    assert order == order[..k] + order[k..];
  }

  method InsertByStart(order: seq<GroupMember>, m: GroupMember) returns (longer: seq<GroupMember>)
    requires ByStart(order)
    ensures ByStart(longer) && multiset(longer) == multiset(order) + multiset{m}
  {
    var k := 0;
    while k < |order| && order[k].startsAt <= m.startsAt
      invariant 0 <= k <= |order|
      invariant forall j | 0 <= j < k :: order[j].startsAt <= m.startsAt
    {
      k := k + 1;
    }
    InsertedByStart(order, k, m);
    longer := order[..k] + [m] + order[k..];
  }

  /** sort.Slice by start: some order by start, nothing more is promised. */
  method SortByStart(ms: seq<GroupMember>) returns (order: seq<GroupMember>)
    ensures IsOrder(order, ms)
  {
    order := [];
    for i := 0 to |ms|
      invariant multiset(order) == multiset(ms[..i]) && ByStart(order)
    {
      assert ms[..i + 1] == ms[..i] + [ms[i]];
      order := InsertByStart(order, ms[i]);
    }
    assert ms[..|ms|] == ms;
  }

  ghost predicate Tallied(ms: seq<GroupMember>, firing: nat, resolved: nat, earliest: int, latest: int,
                          titles: set<string>, targets: set<string>) {
    && firing == FiringCount(ms) && resolved == ResolvedCount(ms)
    && titles == Titles(ms) && targets == Labels(ms)
    && IsEarliest(ms, earliest) && IsLatest(ms, latest)
  }

  lemma TallyStep(before: seq<GroupMember>, m: GroupMember, firing: nat, resolved: nat, earliest: int, latest: int,
                  titles: set<string>, targets: set<string>)
    requires forall x | x in before :: x.startsAt <= m.startsAt
    requires Tallied(before, firing, resolved, earliest, latest, titles, targets)
    ensures
      Tallied(before + [m],
        firing + (if IsResolved(m) then 0 else 1), resolved + (if IsResolved(m) then 1 else 0),
        if earliest == 0 || m.startsAt < earliest then m.startsAt else earliest,
        if IsResolved(m) && m.endsAt.Some? && m.endsAt.value > latest then m.endsAt.value else latest,
        titles + {MemberTitle(m)}, if m.target != "" then targets + {m.target} else targets)
  {
    assert targets + {} == targets;
    SeenCounts(before, m);
    SeenEarliest(before, m, earliest);
    SeenLatest(before, m, latest);
  }

  /** The counters, extremes and sets that renderBatch gathers in its loop. */
  method Gather(order: seq<GroupMember>)
    returns (firing: nat, resolved: nat, earliestStart: int, latestEnd: int, titles: set<string>, targets: set<string>)
    requires ByStart(order)
    ensures Tallied(order, firing, resolved, earliestStart, latestEnd, titles, targets)
  {
    firing, resolved, earliestStart, latestEnd, titles, targets := 0, 0, 0, 0, {}, {};
    for i := 0 to |order|
      invariant Tallied(order[..i], firing, resolved, earliestStart, latestEnd, titles, targets)
    {
      var m := order[i];
      EarlierFirst(order, i);
      TallyStep(order[..i], m, firing, resolved, earliestStart, latestEnd, titles, targets);
      titles := titles + {MemberTitle(m)};
      if m.target != "" {
        targets := targets + {m.target};
      }
      if earliestStart == 0 || m.startsAt < earliestStart {
        earliestStart := m.startsAt;
      }
      if IsResolved(m) {
        resolved := resolved + 1;
        if m.endsAt.Some? && m.endsAt.value > latestEnd {
          latestEnd := m.endsAt.value;
        }
      } else {
        firing := firing + 1;
      }
    }
    assert order[..|order|] == order;
  }

  method MakeHeader(style: GroupStyle, total: nat, firing: nat, resolved: nat, name: string) returns (header: Header, green: bool)
    ensures green == (!style.notificationOnly && firing == 0 && total > 0)
    ensures header == Header(green, name, if style.notificationOnly then Notices(total) else Counts(firing, resolved))
  {
    header, green := Header(false, name, NoTally), false;
    if style.notificationOnly {
      header := header.(tally := Notices(total));
    } else {
      if firing == 0 && total > 0 {
        green := true;
        header := header.(resolvedMark := true);
      }
      header := header.(tally := Counts(firing, resolved));
    }
  }

  method BatchFields(style: GroupStyle, targets: set<string>, allResolved: bool, earliestStart: int, latestEnd: int)
    returns (fields: seq<Field>)
    ensures fields == TeamFields(style) + TargetFieldsOf(targets) + TimeFields(style, allResolved, earliestStart, latestEnd)
  {
    fields := [];
    if style.team != "" {
      fields := fields + [Team(style.team)];
    }
    match |targets| {
      case 0 =>
      case 1 =>
        var target := JoinSorted(targets);
        fields := fields + [Target(target)];
      case n =>
        fields := fields + [TargetsAffected(n)];
    }
    assert fields == TeamFields(style) + TargetFieldsOf(targets);
    if !style.notificationOnly {
      if earliestStart != 0 {
        fields := fields + [StartedAt(earliestStart)];
      }
      if allResolved && latestEnd != 0 {
        fields := fields + [ResolvedAt(latestEnd)];
      }
    }
  }

  lemma SummaryOf(style: GroupStyle, ms: seq<GroupMember>, earliest: int, latest: int, summary: Card)
    requires IsEarliest(ms, earliest) && IsLatest(ms, latest) && summary.header == BatchHeader(style, ms)
    requires summary.green == (!style.notificationOnly && AllResolvedCard(ms))
    requires summary.fields == TeamFields(style) + TargetFields(ms) + TimeFields(style, AllResolvedCard(ms), earliest, latest)
    ensures IsSummary(style, ms, summary)
  { }

  method RenderBatch(style: GroupStyle, members: seq<GroupMember>) returns (card: Card)
    ensures IsBatchCard(style, members, card)
    ensures card.header == BatchHeader(style, members)
  {
    var order := SortByStart(members);
    var firing, resolved, earliestStart, latestEnd, titles, targets := Gather(order);
    SameSummary(members, order, earliestStart, latestEnd);

    var name := JoinSorted(titles);
    var header, green := MakeHeader(style, |members|, firing, resolved, name);
    var allResolved := firing == 0 && |members| > 0;
    var fields := BatchFields(style, targets, allResolved, earliestStart, latestEnd);
    ghost var summary := Card(green, header, fields);
    SummaryOf(style, members, earliestStart, latestEnd, summary);

    var lines := MemberLines(order, style.notificationOnly);
    if |lines| > 0 {
      fields := fields + [Alerts(|members|, lines)];
    }
    card := Card(green, header, fields);
    assert card == summary.(fields := summary.fields + AlertFields(style, order));
  }

  /** The cards that renderBucketMessage may produce for these alerts. */
  ghost predicate IsCard(style: GroupStyle, ms: seq<GroupMember>, card: Card) {
    && (if |ms| == 1 then card == IndividualCard(style, ms[0]) else IsBatchCard(style, ms, card))
    && card.header == HeaderOf(style, ms)
  }

  method RenderBucketMessage(style: GroupStyle, members: seq<GroupMember>) returns (card: Card)
    ensures IsCard(style, members, card)
  {
    if |members| == 1 {
      card := RenderIndividual(style, members[0]);
    } else {
      card := RenderBatch(style, members);
    }
  }

  ghost function HeaderOf(style: GroupStyle, ms: seq<GroupMember>): Header {
    if |ms| == 1 then IndividualCard(style, ms[0]).header else BatchHeader(style, ms)
  }

  lemma SeenCounts(before: seq<GroupMember>, m: GroupMember)
    ensures var upTo := before + [m];
      && FiringCount(upTo) == FiringCount(before) + (if IsResolved(m) then 0 else 1)
      && ResolvedCount(upTo) == ResolvedCount(before) + (if IsResolved(m) then 1 else 0)
      && Titles(upTo) == Titles(before) + {MemberTitle(m)}
      && Labels(upTo) == Labels(before) + (if m.target != "" then {m.target} else {})
  {
    var upTo := before + [m];
    assert Init(upTo) == before;
    assert m in upTo && forall x | x in before :: x in upTo;
  }

  lemma EarlierFirst(order: seq<GroupMember>, i: nat)
    requires i < |order| && ByStart(order)
    ensures order[..i + 1] == order[..i] + [order[i]]
    ensures forall x | x in order[..i] :: x.startsAt <= order[i].startsAt
  { }

  lemma SeenEarliest(before: seq<GroupMember>, m: GroupMember, earliest: int)
    requires (forall x | x in before :: x.startsAt <= m.startsAt) && IsEarliest(before, earliest)
    ensures IsEarliest(before + [m], if earliest == 0 || m.startsAt < earliest then m.startsAt else earliest)
  {
    var upTo := before + [m];
    assert m in upTo && forall x | x in before :: x in upTo;
  }

  lemma SeenLatest(before: seq<GroupMember>, m: GroupMember, latest: int)
    requires IsLatest(before, latest)
    ensures IsLatest(before + [m], if IsResolved(m) && m.endsAt.Some? && m.endsAt.value > latest then m.endsAt.value else latest)
  {
    var upTo := before + [m];
    assert m in upTo && forall x | x in before :: x in upTo;
  }

  lemma {:induction false} CountedAll(ms: seq<GroupMember>)
    ensures FiringCount(ms) + ResolvedCount(ms) == |ms|
  {
    if ms != [] { CountedAll(Init(ms)); }
  }

  // ------------------------------------------------ independent of order

  lemma {:induction false} CountsOfMultiset(a: seq<GroupMember>, b: seq<GroupMember>)
    requires multiset(a) == multiset(b)
    ensures FiringCount(a) == FiringCount(b) && ResolvedCount(a) == ResolvedCount(b) && |a| == |b|
    decreases |a|
  {
    assert |multiset(a)| == |a| && |multiset(b)| == |b|;
    if a != [] {
      var x := Last(a);
      assert a == Init(a) + [x];
      assert x in multiset(b);
      var i :| 0 <= i < |b| && b[i] == x;
      var rest := b[..i] + b[i + 1..];
      assert b == b[..i] + [x] + b[i + 1..];
      CountRemoved(b, i);
      assert multiset(Init(a)) == multiset(a) - multiset{x};
      assert multiset(rest) == multiset(b) - multiset{x};
      CountsOfMultiset(Init(a), rest);
    }
  }

  lemma {:induction false} CountRemoved(b: seq<GroupMember>, i: nat)
    requires i < |b|
    ensures var rest := b[..i] + b[i + 1..];
      && FiringCount(b) == FiringCount(rest) + (if IsResolved(b[i]) then 0 else 1)
      && ResolvedCount(b) == ResolvedCount(rest) + (if IsResolved(b[i]) then 1 else 0)
    decreases |b|
  {
    var rest := b[..i] + b[i + 1..];
    if i == |b| - 1 {
      assert rest == Init(b);
    } else {
      CountRemoved(Init(b), i);
      assert Init(rest) == Init(b)[..i] + Init(b)[i + 1..];
      assert Last(rest) == Last(b);
    }
  }

  lemma SameElements(a: seq<GroupMember>, b: seq<GroupMember>)
    requires multiset(a) == multiset(b)
    ensures forall m :: m in a <==> m in b
  {
    forall m ensures m in a <==> m in b {
      assert m in a <==> m in multiset(a);
      assert m in b <==> m in multiset(b);
    }
  }

  lemma SameSummary(members: seq<GroupMember>, order: seq<GroupMember>, earliest: int, latest: int)
    requires multiset(order) == multiset(members)
    requires IsEarliest(order, earliest) && IsLatest(order, latest)
    ensures FiringCount(order) == FiringCount(members) && ResolvedCount(order) == ResolvedCount(members) && |order| == |members|
    ensures Titles(order) == Titles(members) && Labels(order) == Labels(members)
    ensures IsEarliest(members, earliest) && IsLatest(members, latest)
  {
    CountsOfMultiset(order, members);
    SameElements(order, members);
  }

  lemma SummaryUnique(style: GroupStyle, a: seq<GroupMember>, b: seq<GroupMember>, s: Card, r: Card)
    requires multiset(a) == multiset(b) && IsSummary(style, a, s) && IsSummary(style, b, r)
    ensures s == r
  {
    CountsOfMultiset(a, b);
    SameElements(a, b);
    assert Titles(a) == Titles(b) && Labels(a) == Labels(b);
    var e1, l1 :| IsEarliest(a, e1) && IsLatest(a, l1) &&
      s.fields == TeamFields(style) + TargetFields(a) + TimeFields(style, AllResolvedCard(a), e1, l1);
    var e2, l2 :| IsEarliest(b, e2) && IsLatest(b, l2) &&
      r.fields == TeamFields(style) + TargetFields(b) + TimeFields(style, AllResolvedCard(b), e2, l2);
    ExtremesUnique(a, b, e1, e2, l1, l2);
  }

  lemma ExtremesUnique(a: seq<GroupMember>, b: seq<GroupMember>, e1: int, e2: int, l1: int, l2: int)
    requires forall m :: m in a <==> m in b
    requires IsEarliest(a, e1) && IsLatest(a, l1) && IsEarliest(b, e2) && IsLatest(b, l2)
    ensures e1 == e2 && l1 == l2
  { }

  /** Whatever order the alerts arrive and are sorted in, the cards agree on
      everything but the list of alerts. */
  lemma OnlyLinesDiffer(style: GroupStyle, a: seq<GroupMember>, b: seq<GroupMember>, s: Card, r: Card)
    requires multiset(a) == multiset(b) && IsBatchCard(style, a, s) && IsBatchCard(style, b, r)
    ensures s.header == r.header && s.green == r.green && |s.fields| == |r.fields|
    ensures forall i | 0 <= i < |s.fields| && s.fields[i] != r.fields[i] ::
      i == |s.fields| - 1 && s.fields[i].Alerts? && r.fields[i].Alerts? && s.fields[i].total == r.fields[i].total == |a|
  {
    var s0, o1 :| IsSummary(style, a, s0) && IsOrder(o1, a) && s == s0.(fields := s0.fields + AlertFields(style, o1));
    var r0, o2 :| IsSummary(style, b, r0) && IsOrder(o2, b) && r == r0.(fields := r0.fields + AlertFields(style, o2));
    SummaryUnique(style, a, b, s0, r0);
    assert |o1| == |multiset(o1)| == |multiset(a)| == |a|;
    assert |o2| == |multiset(o2)| == |multiset(b)| == |b|;
    assert |multiset(a)| == |multiset(b)|;
  }

  predicate DistinctStarts(ms: seq<GroupMember>) {
    forall i, j | 0 <= i < j < |ms| :: ms[i].startsAt != ms[j].startsAt
  }

  /** When no two alerts start together the whole card is fixed. */
  lemma CardUnique(style: GroupStyle, a: seq<GroupMember>, b: seq<GroupMember>, s: Card, r: Card)
    requires multiset(a) == multiset(b) && DistinctStarts(a)
    requires IsBatchCard(style, a, s) && IsBatchCard(style, b, r)
    ensures s == r
  {
    var s0, o1 :| IsSummary(style, a, s0) && IsOrder(o1, a) && s == s0.(fields := s0.fields + AlertFields(style, o1));
    var r0, o2 :| IsSummary(style, b, r0) && IsOrder(o2, b) && r == r0.(fields := r0.fields + AlertFields(style, o2));
    SummaryUnique(style, a, b, s0, r0);
    forall x: GroupMember, y: GroupMember | x in o1 && y in o1 && x.startsAt == y.startsAt ensures x == y {
      assert x in multiset(a) && y in multiset(a);
      var i :| 0 <= i < |a| && a[i] == x;
      var j :| 0 <= j < |a| && a[j] == y;
    }
    OrderUnique(o1, o2);
  }

  lemma {:induction false} OrderUnique(a: seq<GroupMember>, b: seq<GroupMember>)
    requires multiset(a) == multiset(b) && ByStart(a) && ByStart(b)
    requires forall x, y | x in a && y in a && x.startsAt == y.startsAt :: x == y
    ensures a == b
    decreases |a|
  {
    assert |a| == |multiset(a)| == |multiset(b)| == |b|;
    if a != [] {
      FirstUnique(a, b);
      TailOf(a);
      TailOf(b);
      OrderUnique(a[1..], b[1..]);
    }
  }

  lemma TailOf(a: seq<GroupMember>)
    requires a != []
    ensures a == [a[0]] + a[1..] && multiset(a[1..]) == multiset(a) - multiset{a[0]}
    ensures ByStart(a) ==> ByStart(a[1..])
    ensures forall m | m in a[1..] :: m in a
  { }

  lemma FirstUnique(a: seq<GroupMember>, b: seq<GroupMember>)
    requires a != [] && b != [] && multiset(a) == multiset(b) && ByStart(a) && ByStart(b)
    requires forall x, y | x in a && y in a && x.startsAt == y.startsAt :: x == y
    ensures a[0] == b[0]
  {
    SameElements(a, b);
    assert a[0] in b && b[0] in a;
    var i :| 0 <= i < |b| && b[i] == a[0];
    var j :| 0 <= j < |a| && a[j] == b[0];
    assert b[0].startsAt <= a[0].startsAt <= b[0].startsAt;
  }

  /** Every alert is listed or counted: the lines and the rest add up. */
  lemma LinesAddUp(order: seq<GroupMember>, notificationOnly: bool)
    ensures var lines := Lines(order, notificationOnly);
      && (forall i | 0 <= i < |lines| && lines[i].AndMore? :: i == |lines| - 1 && i == MAX_MEMBER_LINES && lines[i].count > 0)
      && |order| == (if lines != [] && Last(lines).AndMore? then |lines| - 1 + Last(lines).count else |lines|)
  { }
}
