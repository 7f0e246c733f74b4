/** What the cards say, read off the cards: the colour, the title and every
    field, by the alerts they are for. */
module Cards {
  import opened Prelude
  import opened Texts
  import opened Members
  import opened Message

  /** The one order in which fields may appear. */
  function Rank(f: Field): nat {
    match f
    case Team(_) => 0
    case Target(_) => 1
    case TargetsAffected(_) => 1
    case StartedAt(_) => 2
    case ResolvedAt(_) => 3
    case Extra(_, _) => 4
    case Alerts(_, _) => 5
  }

  /** Fields in order, and no kind of them twice but the extras. */
  predicate Ordered(fs: seq<Field>) {
    forall i, j | 0 <= i < j < |fs| :: Rank(fs[i]) < Rank(fs[j]) || (fs[i].Extra? && fs[j].Extra?)
  }

  // ------------------------------------------------------ a single alert

  lemma {:induction false} ExtrasAt(fs: seq<MemberField>)
    ensures |ExtraFields(fs)| == |fs|
    ensures forall i | 0 <= i < |fs| :: ExtraFields(fs)[i] == Extra(fs[i].title, fs[i].value)
  {
    if fs != [] { ExtrasAt(Init(fs)); }
  }

  lemma IsIndividual(style: GroupStyle, m: GroupMember, card: Card)
    requires IsCard(style, [m], card)
    ensures card == IndividualCard(style, m)
  {
    assert [m][0] == m;
  }

  /** Green means resolved, and the title says so too. */
  lemma SingleColour(style: GroupStyle, m: GroupMember, card: Card)
    requires IsCard(style, [m], card)
    ensures card.green <==> !style.notificationOnly && m.status == "resolved"
    ensures card.header.resolvedMark <==> card.green
    ensures card.header.name == if m.displayTitle != "" then m.displayTitle else m.alertname
    ensures card.header.tally == NoTally
  {
    IsIndividual(style, m, card);
  }

  lemma PartsIn(style: GroupStyle, m: GroupMember, f: Field)
    ensures f in TeamFields(style) <==> style.team != "" && f == Team(style.team)
    ensures f in TargetField(m) <==> m.target != "" && f == Target(m.target)
    ensures f in LifeFields(style, m) <==>
      (!style.notificationOnly && f == StartedAt(m.startsAt))
      || (!style.notificationOnly && m.status == "resolved" && m.endsAt.Some? && f == ResolvedAt(m.endsAt.value))
  { }

  lemma ExtraIn(fs: seq<MemberField>, f: Field)
    ensures f in ExtraFields(fs) <==> f.Extra? && MemberField(f.title, f.value) in fs
  {
    ExtrasAt(fs);
    if f.Extra? && MemberField(f.title, f.value) in fs {
      var i :| 0 <= i < |fs| && fs[i] == MemberField(f.title, f.value);
      assert ExtraFields(fs)[i] == f;
    }
    if f in ExtraFields(fs) {
      var i :| 0 <= i < |fs| && ExtraFields(fs)[i] == f;
      assert fs[i] == MemberField(f.title, f.value);
    }
  }

  lemma InFour(a: seq<Field>, b: seq<Field>, c: seq<Field>, d: seq<Field>, f: Field)
    ensures f in a + b + c + d <==> f in a || f in b || f in c || f in d
  { }

  /** Team and target are there when they are known, the times when the rule has
      a lifecycle, the end only of a resolved alert that has one, and the extras
      that are listed; nothing else is. */
  lemma SingleField(style: GroupStyle, m: GroupMember, card: Card, f: Field)
    requires IsCard(style, [m], card)
    ensures f in card.fields <==>
      match f
      case Team(x) => x == style.team && x != ""
      case Target(x) => x == m.target && x != ""
      case StartedAt(t) => !style.notificationOnly && t == m.startsAt
      case ResolvedAt(t) => !style.notificationOnly && m.status == "resolved" && m.endsAt == Some(t)
      case Extra(title, value) => MemberField(title, value) in m.displayFields
      case _ => false
  {
    IsIndividual(style, m, card);
    PartsIn(style, m, f);
    ExtraIn(m.displayFields, f);
    InFour(TeamFields(style), TargetField(m), LifeFields(style, m), ExtraFields(m.displayFields), f);
  }

  lemma OrderedConcat(a: seq<Field>, b: seq<Field>, n: nat)
    requires Ordered(a) && Ordered(b) && (forall f | f in a :: Rank(f) < n) && forall f | f in b :: Rank(f) >= n
    ensures Ordered(a + b)
  {
    var all := a + b;
    forall i, j | 0 <= i < j < |all| ensures Rank(all[i]) < Rank(all[j]) || (all[i].Extra? && all[j].Extra?) {
      if i < |a| && j >= |a| { assert all[i] in a && all[j] in b; }
    }
  }

  lemma ExtrasOrdered(fs: seq<MemberField>)
    ensures Ordered(ExtraFields(fs)) && forall f | f in ExtraFields(fs) :: Rank(f) == 4
  {
    ExtrasAt(fs);
  }

  lemma LifeOrdered(style: GroupStyle, m: GroupMember)
    ensures Ordered(LifeFields(style, m)) && forall f | f in LifeFields(style, m) :: 2 <= Rank(f) <= 3
  { }

  lemma FrontOrdered(style: GroupStyle, m: GroupMember)
    ensures var front := TeamFields(style) + TargetField(m);
      Ordered(front) && forall f | f in front :: Rank(f) <= 1
  { }

  /** The extras come last, as they are listed; the rest keeps its order. */
  lemma SingleOrder(style: GroupStyle, m: GroupMember, card: Card) returns (front: seq<Field>, extras: seq<Field>)
    requires IsCard(style, [m], card)
    ensures Ordered(card.fields) && card.fields == front + extras && |extras| == |m.displayFields|
    ensures forall i | 0 <= i < |extras| :: extras[i] == Extra(m.displayFields[i].title, m.displayFields[i].value)
    ensures forall f | f in front :: !f.Extra?
  {
    IsIndividual(style, m, card);
    front, extras := TeamFields(style) + TargetField(m) + LifeFields(style, m), ExtraFields(m.displayFields);
    ExtrasAt(m.displayFields);
    ExtrasOrdered(m.displayFields);
    FrontOrdered(style, m);
    LifeOrdered(style, m);
    OrderedConcat(TeamFields(style) + TargetField(m), LifeFields(style, m), 2);
    OrderedConcat(front, extras, 4);
  }

  // ------------------------------------------------------- many alerts

  function TitleOf(m: GroupMember): string {
    if m.displayTitle != "" then m.displayTitle else m.alertname
  }

  function CaptionOf(m: GroupMember): string {
    if m.target != "" then m.target else TitleOf(m)
  }

  /** The least start there is, not counting missing ones. */
  predicate Earliest(ms: seq<GroupMember>, t: int) {
    t != 0 && (exists m | m in ms :: m.startsAt == t) && forall m | m in ms :: m.startsAt == 0 || t <= m.startsAt
  }

  /** The greatest end after the zero time of a resolved alert. */
  predicate Latest(ms: seq<GroupMember>, t: int) {
    && t > 0 && (exists m | m in ms :: m.status == "resolved" && m.endsAt == Some(t))
    && forall m | m in ms :: m.status == "resolved" && m.endsAt.Some? ==> m.endsAt.value <= t
  }

  /** The indices of the alerts that are, or are not, resolved. */
  function Where(ms: seq<GroupMember>, resolved: bool): set<int> {
    set i | 0 <= i < |ms| && (ms[i].status == "resolved") == resolved
  }

  lemma WhereSnoc(ms: seq<GroupMember>, resolved: bool)
    requires ms != []
    ensures Where(ms, resolved) ==
      if (Last(ms).status == "resolved") == resolved then Where(Init(ms), resolved) + {|ms| - 1} else Where(Init(ms), resolved)
    ensures |ms| - 1 !in Where(Init(ms), resolved)
  {
    forall i | 0 <= i < |ms| - 1 ensures Init(ms)[i] == ms[i] { }
  }

  lemma {:induction false} CountsWhere(ms: seq<GroupMember>)
    ensures FiringCount(ms) == |Where(ms, false)| && ResolvedCount(ms) == |Where(ms, true)|
  {
    if ms != [] {
      CountsWhere(Init(ms));
      WhereSnoc(ms, false);
      WhereSnoc(ms, true);
    }
  }

  lemma AllResolvedWhere(ms: seq<GroupMember>)
    requires ms != []
    ensures AllResolvedCard(ms) <==> forall m | m in ms :: m.status == "resolved"
  {
    CountsWhere(ms);
    if forall m | m in ms :: m.status == "resolved" {
      forall i | 0 <= i < |ms| ensures i !in Where(ms, false) { assert ms[i] in ms; }
      assert Where(ms, false) == {};
    } else {
      var m :| m in ms && m.status != "resolved";
      var i :| 0 <= i < |ms| && ms[i] == m;
      assert i in Where(ms, false);
    }
  }

  lemma BatchParts(style: GroupStyle, ms: seq<GroupMember>, card: Card) returns (summary: Card, order: seq<GroupMember>)
    requires |ms| > 1 && IsCard(style, ms, card)
    ensures IsSummary(style, ms, summary) && IsOrder(order, ms) && |order| == |ms|
    ensures card == summary.(fields := summary.fields + [Alerts(|ms|, Lines(order, style.notificationOnly))])
  {
    summary, order :| IsSummary(style, ms, summary) && IsOrder(order, ms)
      && card == summary.(fields := summary.fields + AlertFields(style, order));
    assert |order| == |multiset(order)| == |multiset(ms)| == |ms|;
  }

  /** Green means that all are resolved; the title counts them. */
  lemma BatchColour(style: GroupStyle, ms: seq<GroupMember>, card: Card)
    requires |ms| > 1 && IsCard(style, ms, card)
    ensures card.green <==> !style.notificationOnly && forall m | m in ms :: m.status == "resolved"
    ensures card.header.resolvedMark <==> card.green
    ensures card.header.tally == if style.notificationOnly then Notices(|ms|) else Counts(|Where(ms, false)|, |Where(ms, true)|)
  {
    var summary, order := BatchParts(style, ms, card);
    AllResolvedWhere(ms);
    CountsWhere(ms);
  }

  /** The name is the sorted list of the alerts' titles, each once. */
  lemma BatchName(style: GroupStyle, ms: seq<GroupMember>, card: Card) returns (titles: seq<string>)
    requires |ms| > 1 && IsCard(style, ms, card)
    ensures Sorted(titles) && NoDup(titles) && card.header.name == Join(titles, ", ")
    ensures forall x :: x in titles <==> exists m :: m in ms && TitleOf(m) == x
  {
    titles := SortedList(Titles(ms));
    SortedListFacts(Titles(ms));
    ListOfSet(Titles(ms), titles);
  }

  // -------------------------------------------------- the fields of a batch

  /** The targets that are named. */
  function Targets(ms: seq<GroupMember>): set<string> {
    set m | m in ms && m.target != "" :: m.target
  }

  lemma TargetsIn(ms: seq<GroupMember>, f: Field)
    ensures f in TargetFields(ms) <==>
      match f
      case Target(x) => x != "" && (exists m :: m in ms && m.target == x) && forall m | m in ms :: m.target == "" || m.target == x
      case TargetsAffected(n) => n == |Targets(ms)| && n > 1
      case _ => false
  {
    var all := Labels(ms);
    assert all == Targets(ms);
    if |all| == 1 {
      var x :| x in all;
      OnlyElement(all, x);
      SortedListFacts(all);
      OnlyListed(all, x);
      var m :| m in ms && m.target == x;
      forall y | y in ms ensures y.target == "" || y.target == x {
        if y.target != "" { assert y.target in all; }
      }
      assert TargetFields(ms) == [Target(x)];
      if f.Target? && f.target != x { assert x in all; }
    } else {
      if f.Target? { SharedTarget(ms, f.target); }
    }
  }

  lemma SharedTarget(ms: seq<GroupMember>, x: string)
    ensures x != "" && (exists m :: m in ms && m.target == x) && (forall m | m in ms :: m.target == "" || m.target == x)
      ==> |Labels(ms)| == 1
  {
    if x != "" && (exists m :: m in ms && m.target == x) && (forall m | m in ms :: m.target == "" || m.target == x) {
      assert Labels(ms) == {x};
    }
  }

  lemma OnlyElement(s: set<string>, x: string)
    requires |s| == 1 && x in s
    ensures s == {x}
  {
    assert |s - {x}| == 0;
  }

  lemma OnlyListed(s: set<string>, x: string)
    requires s == {x}
    ensures SortedList(s) == [x] && Join(SortedList(s), ", ") == x
  {
    SortedListFacts(s);
    ListOfSet(s, SortedList(s));
    var xs := SortedList(s);
    assert |xs| == |multiset(xs)| == |multiset(s)| == 1;
    assert xs[0] in xs;
  }

  lemma TimesIn(style: GroupStyle, ms: seq<GroupMember>, earliest: int, latest: int, f: Field)
    requires ms != [] && IsEarliest(ms, earliest) && IsLatest(ms, latest)
    ensures f in TimeFields(style, AllResolvedCard(ms), earliest, latest) <==>
      match f
      case StartedAt(t) => !style.notificationOnly && Earliest(ms, t)
      case ResolvedAt(t) => !style.notificationOnly && (forall m | m in ms :: m.status == "resolved") && Latest(ms, t)
      case _ => false
  {
    AllResolvedWhere(ms);
    var fs := TimeFields(style, AllResolvedCard(ms), earliest, latest);
    assert f in fs <==>
      (!style.notificationOnly && earliest != 0 && f == StartedAt(earliest))
      || (!style.notificationOnly && AllResolvedCard(ms) && latest != 0 && f == ResolvedAt(latest));
    EarliestIs(ms, earliest, if f.StartedAt? then f.start else 0);
    LatestIs(ms, latest, if f.ResolvedAt? then f.end else 0);
  }

  lemma EarliestIs(ms: seq<GroupMember>, earliest: int, t: int)
    requires IsEarliest(ms, earliest)
    ensures earliest != 0 && t == earliest <==> Earliest(ms, t)
  { }

  lemma LatestIs(ms: seq<GroupMember>, latest: int, t: int)
    requires IsLatest(ms, latest)
    ensures latest != 0 && t == latest <==> Latest(ms, t)
  { }

  lemma InThree(a: seq<Field>, b: seq<Field>, c: seq<Field>, last: Field, f: Field)
    ensures f in a + b + c + [last] <==> f in a || f in b || f in c || f == last
  { }

  /** Each field of a summary says what it says of the alerts as a whole: the
      one target they share or how many there are, the least start, the greatest
      end once all are resolved, and the list of the alerts. */
  lemma BatchField(style: GroupStyle, ms: seq<GroupMember>, card: Card, f: Field)
    requires |ms| > 1 && IsCard(style, ms, card)
    ensures !f.Alerts? ==> (f in card.fields <==>
      match f
      case Team(x) => x == style.team && x != ""
      case Target(x) => x != "" && (exists m :: m in ms && m.target == x) && forall m | m in ms :: m.target == "" || m.target == x
      case TargetsAffected(n) => n == |Targets(ms)| && n > 1
      case StartedAt(t) => !style.notificationOnly && Earliest(ms, t)
      case ResolvedAt(t) => !style.notificationOnly && (forall m | m in ms :: m.status == "resolved") && Latest(ms, t)
      case _ => false)
  {
    var summary, order := BatchParts(style, ms, card);
    var earliest, latest :| IsEarliest(ms, earliest) && IsLatest(ms, latest) &&
      summary.fields == TeamFields(style) + TargetFields(ms) + TimeFields(style, AllResolvedCard(ms), earliest, latest);
    var last := Alerts(|ms|, Lines(order, style.notificationOnly));
    PartsIn(style, ms[0], f);
    TargetsIn(ms, f);
    TimesIn(style, ms, earliest, latest, f);
    InThree(TeamFields(style), TargetFields(ms), TimeFields(style, AllResolvedCard(ms), earliest, latest), last, f);
  }

  /** The last field lists the alerts by their start: the first twenty by
      target or title, marked when resolved, and how many are left. */
  lemma BatchList(style: GroupStyle, ms: seq<GroupMember>, card: Card) returns (order: seq<GroupMember>, lines: seq<Line>)
    requires |ms| > 1 && IsCard(style, ms, card)
    ensures card.fields != [] && Last(card.fields) == Alerts(|ms|, lines) && forall f | f in Init(card.fields) :: !f.Alerts?
    ensures multiset(order) == multiset(ms) && |order| == |ms| && forall i, j | 0 <= i < j < |order| :: order[i].startsAt <= order[j].startsAt
    ensures |lines| == if |ms| <= 20 then |ms| else 21
    ensures forall i | 0 <= i < |lines| && i < 20 ::
      lines[i] == Alert(CaptionOf(order[i]), !style.notificationOnly && order[i].status == "resolved")
    ensures |ms| > 20 ==> lines[20] == AndMore(|ms| - 20)
  {
    var summary: Card;
    summary, order := BatchParts(style, ms, card);
    lines := Lines(order, style.notificationOnly);
    assert card.fields == summary.fields + [Alerts(|ms|, lines)];
    assert Init(card.fields) == summary.fields;
    SummaryHasNoList(style, ms, summary);
  }

  lemma SummaryHasNoList(style: GroupStyle, ms: seq<GroupMember>, summary: Card)
    requires IsSummary(style, ms, summary)
    ensures forall f | f in summary.fields :: !f.Alerts?
  { }

  lemma PartsOrdered(style: GroupStyle, ms: seq<GroupMember>, allResolved: bool, earliest: int, latest: int)
    ensures Ordered(TeamFields(style)) && forall f | f in TeamFields(style) :: Rank(f) == 0
    ensures Ordered(TargetFields(ms)) && forall f | f in TargetFields(ms) :: Rank(f) == 1
    ensures var times := TimeFields(style, allResolved, earliest, latest);
      Ordered(times) && forall f | f in times :: 2 <= Rank(f) <= 3
  { }

  lemma SummaryOrder(style: GroupStyle, ms: seq<GroupMember>, summary: Card)
    requires IsSummary(style, ms, summary)
    ensures Ordered(summary.fields) && forall f | f in summary.fields :: Rank(f) <= 3
  {
    var earliest, latest :| IsEarliest(ms, earliest) && IsLatest(ms, latest) &&
      summary.fields == TeamFields(style) + TargetFields(ms) + TimeFields(style, AllResolvedCard(ms), earliest, latest);
    var team, target, times := TeamFields(style), TargetFields(ms), TimeFields(style, AllResolvedCard(ms), earliest, latest);
    PartsOrdered(style, ms, AllResolvedCard(ms), earliest, latest);
    OrderedConcat(team, target, 1);
    OrderedConcat(team + target, times, 2);
  }

  /** A summary's fields come in the same order as a single card's. */
  lemma BatchOrder(style: GroupStyle, ms: seq<GroupMember>, card: Card)
    requires |ms| > 1 && IsCard(style, ms, card)
    ensures Ordered(card.fields)
  {
    var summary, order := BatchParts(style, ms, card);
    SummaryOrder(style, ms, summary);
    OrderedConcat(summary.fields, [Alerts(|ms|, Lines(order, style.notificationOnly))], 5);
  }

  /** Whatever the number of alerts, green says that all of them are resolved. */
  lemma GreenMeansResolved(style: GroupStyle, ms: seq<GroupMember>, card: Card)
    requires ms != [] && IsCard(style, ms, card)
    ensures card.green <==> !style.notificationOnly && forall m | m in ms :: m.status == "resolved"
  {
    if |ms| == 1 {
      assert ms == [ms[0]];
      SingleColour(style, ms[0], card);
    } else {
      BatchColour(style, ms, card);
    }
  }
}
