/** Routing rules: the form that edits them, the group key they give an alert,
    and the event they turn it into. */
module Rules {
  import opened Prelude
  import opened Texts
  import opened Members
  import opened Groups
  import opened Channels
  import opened Forms

  /** A rule as the form edits it; enrichments are not part of the model. */
  datatype Rule = Rule(
    name: string,
    channel: string,
    team: string,
    targetLabel: string,
    matchLabels: map<string, string>,
    groupBy: seq<string>,
    extraFields: seq<Pair>,
    displayTitle: string,
    enabled: bool,
    notificationOnly: bool)

  datatype Form = Form(
    name: string,
    channel: string,
    team: string,
    targetLabel: string,
    matchLabels: string,
    groupBy: string,
    extraFields: string,
    displayTitle: string,
    enabled: bool,
    notificationOnly: bool)

  function RuleOf(f: Form): Rule {
    Rule(Trim(f.name), Join(ChannelList(f.channel), ", "), Trim(f.team), Trim(f.targetLabel), Labels(f.matchLabels),
         CsvList(f.groupBy), FieldList(f.extraFields), Trim(f.displayTitle), f.enabled, f.notificationOnly)
  }

  /** Saving a form: refused without a name or a channel. */
  method ReadForm(f: Form) returns (rule: Option<Rule>)
    ensures rule == if Trim(f.name) == "" || ChannelList(f.channel) == [] then None else Some(RuleOf(f))
    ensures rule.Some? ==> var r := rule.value;
      && r.name == Trim(f.name) && r.team == Trim(f.team) && r.targetLabel == Trim(f.targetLabel) && r.displayTitle == Trim(f.displayTitle)
      && ChannelList(r.channel) == ChannelList(f.channel) && r.matchLabels == Labels(f.matchLabels) && r.groupBy == CsvList(f.groupBy)
      && r.extraFields == FieldList(f.extraFields) && r.enabled == f.enabled && r.notificationOnly == f.notificationOnly
  {
    var channel := NormalizeChannelList(f.channel);
    var labels := ParseLabels(f.matchLabels);
    var groupBy := ParseCSV(f.groupBy);
    var fields := ParseFieldList(f.extraFields);
    var r := Rule(Trim(f.name), channel, Trim(f.team), Trim(f.targetLabel), labels, groupBy, fields,
                  Trim(f.displayTitle), f.enabled, f.notificationOnly);
    EmptyChannel(f.channel);
    NormalizedMeansTheSame(f.channel);
    if r.name == "" || r.channel == "" {
      return None;
    }
    return Some(r);
  }

  lemma EmptyChannel(raw: string)
    ensures Join(ChannelList(raw), ", ") == "" <==> ChannelList(raw) == []
  {
    var cs := ChannelList(raw);
    ChannelListFacts(raw);
    if cs != [] {
      assert cs[0] in cs && Tidy(cs[0]);
    }
  }

  ghost function FormOf(r: Rule): Form {
    Form(r.name, r.channel, r.team, r.targetLabel, LabelsText(r.matchLabels), Join(r.groupBy, ", "),
         FieldsText(r.extraFields), r.displayTitle, r.enabled, r.notificationOnly)
  }

  method ShowForm(r: Rule) returns (f: Form)
    ensures f == FormOf(r)
    ensures f.name == r.name && f.channel == r.channel && f.team == r.team && f.targetLabel == r.targetLabel
    ensures f.displayTitle == r.displayTitle && f.enabled == r.enabled && f.notificationOnly == r.notificationOnly
  {
    var labels := FormatLabels(r.matchLabels);
    var fields := FormatFieldList(r.extraFields);
    f := Form(r.name, r.channel, r.team, r.targetLabel, labels, Join(r.groupBy, ", "), fields,
              r.displayTitle, r.enabled, r.notificationOnly);
  }

  /** The form as it comes back unedited: the text areas with either kind of
      line break. */
  ghost function Resubmitted(f: Form, crlf: bool): Form {
    f.(matchLabels := Resent(f.matchLabels, crlf), extraFields := Resent(f.extraFields, crlf))
  }

  lemma TrimTwice(s: string)
    ensures Trim(Trim(s)) == Trim(s)
  {
    TrimTrimmed(s);
    TrimIdentity(Trim(s));
  }

  /** Opening a saved rule and saving it unchanged gives the same rule, for
      every text anyone typed in the first place. */
  lemma ResavingChangesNothing(f: Form, crlf: bool)
    ensures RuleOf(Resubmitted(FormOf(RuleOf(f)), crlf)) == RuleOf(f)
  {
    TrimTwice(f.name);
    TrimTwice(f.team);
    TrimTwice(f.targetLabel);
    TrimTwice(f.displayTitle);
    NormalizedMeansTheSame(f.channel);
    GroupByRoundTrip(f.groupBy);
    LabelsTidy(f.matchLabels);
    LabelsRoundTrip(Labels(f.matchLabels), crlf);
    FieldListTidy(f.extraFields);
    FieldsRoundTrip(FieldList(f.extraFields), crlf);
  }

  // -------------------------------------------------------------- group key

  function LabelAt(labels: map<string, string>, k: string): string {
    if k in labels then labels[k] else ""
  }

  function KeyParts(keys: seq<string>, labels: map<string, string>): seq<string> {
    if keys == [] then [] else KeyParts(Init(keys), labels) + [Last(keys) + "=" + LabelAt(labels, Last(keys))]
  }

  /** The text whose hash names the group. */
  function KeyPreimage(r: Rule, labels: map<string, string>): string {
    var groupBy := if r.groupBy == [] then ["alertname"] else r.groupBy;
    r.name + "|" + r.channel + "|" + Join(KeyParts(Sort(groupBy), labels), ",")
  }

  method ComputeGroupKey(r: Rule, labels: map<string, string>) returns (preimage: string)
    ensures preimage == KeyPreimage(r, labels)
  {
    var groupBy := r.groupBy;
    if |groupBy| == 0 {
      groupBy := ["alertname"];
    }
    var keys := Sort(groupBy);
    var parts := [];
    for i := 0 to |keys|
      invariant parts == KeyParts(keys[..i], labels)
    {
      assert Init(keys[..i + 1]) == keys[..i];
      var v := if keys[i] in labels then labels[keys[i]] else "";
      parts := parts + [keys[i] + "=" + v];
    }
    assert keys[..|keys|] == keys;
    preimage := r.name + "|" + r.channel + "|" + Join(parts, ",");
  }

  /** The order of the group-by labels does not matter. */
  lemma KeyIgnoresOrder(r: Rule, groupBy: seq<string>, labels: map<string, string>)
    requires multiset(groupBy) == multiset(r.groupBy)
    ensures KeyPreimage(r.(groupBy := groupBy), labels) == KeyPreimage(r, labels)
  {
    assert |groupBy| == |multiset(groupBy)| == |multiset(r.groupBy)| == |r.groupBy|;
    SortPermutation(groupBy, r.groupBy);
  }

  /** Saving a rule again unchanged moves no alert to another group and changes
      no destination. */
  lemma ResavingKeepsGroups(f: Form, crlf: bool, labels: map<string, string>)
    ensures var again := RuleOf(Resubmitted(FormOf(RuleOf(f)), crlf));
      && KeyPreimage(again, labels) == KeyPreimage(RuleOf(f), labels)
      && ChannelList(again.channel) == ChannelList(f.channel)
  {
    ResavingChangesNothing(f, crlf);
    NormalizedMeansTheSame(f.channel);
  }

  lemma {:induction false} KeyPartsAt(keys: seq<string>, labels: map<string, string>)
    ensures |KeyParts(keys, labels)| == |keys|
    ensures forall i | 0 <= i < |keys| :: KeyParts(keys, labels)[i] == keys[i] + "=" + LabelAt(labels, keys[i])
  {
    if keys != [] { KeyPartsAt(Init(keys), labels); }
  }

  /** Alerts that agree on the group-by labels land in the same group. */
  lemma SameLabelsSameGroup(r: Rule, a: map<string, string>, b: map<string, string>)
    requires forall k | k in (if r.groupBy == [] then ["alertname"] else r.groupBy) :: LabelAt(a, k) == LabelAt(b, k)
    ensures KeyPreimage(r, a) == KeyPreimage(r, b)
  {
    var groupBy := if r.groupBy == [] then ["alertname"] else r.groupBy;
    var keys := Sort(groupBy);
    SortCorrect(groupBy);
    KeyPartsAt(keys, a);
    KeyPartsAt(keys, b);
    forall i | 0 <= i < |keys| ensures KeyParts(keys, a)[i] == KeyParts(keys, b)[i] {
      assert keys[i] in multiset(groupBy);
    }
    assert KeyParts(keys, a) == KeyParts(keys, b);
  }

  // ---------------------------------------------------------------- events

  /** An incoming alert.  The rendered title and the resolved extra fields are
      taken as given. */
  datatype Incoming = Incoming(
    fingerprint: string,
    alertname: string,
    status: string,
    startsAt: int,
    endsAt: Option<int>,
    labels: map<string, string>,
    displayTitle: string,
    displayFields: seq<MemberField>)

  predicate Matches(r: Rule, labels: map<string, string>) {
    forall k | k in r.matchLabels :: k in labels && labels[k] == r.matchLabels[k]
  }

  /** The member a matching rule makes of an alert: an event without delivery
      bookkeeping, resolved from the start for a notification-only rule. */
  function EventFor(r: Rule, a: Incoming, now: int): (e: GroupMember)
    ensures IsEvent(e) && e.fingerprint == a.fingerprint
    ensures e.status == if r.notificationOnly then "resolved" else a.status
  {
    GroupMember(a.fingerprint, a.alertname, if r.notificationOnly then "resolved" else a.status,
      if r.targetLabel != "" then LabelAt(a.labels, r.targetLabel) else "",
      a.startsAt, a.endsAt, now, a.displayTitle, a.displayFields, [], "")
  }

  function InfoFor(r: Rule, labels: map<string, string>): GroupInfo {
    GroupInfo(KeyPreimage(r, labels), r.channel, r.team, r.notificationOnly)
  }

  /** The table after an alert went through the rules, one after the other. */
  function Ingested(rows: Rows, rules: seq<Rule>, a: Incoming, debounce: int, maxWindow: int, now: int): Rows {
    if rules == [] then rows
    else
      var before, r := Ingested(rows, Init(rules), a, debounce, maxWindow, now), Last(rules);
      if !Matches(r, a.labels) then before
      else
        var info := InfoFor(r, a.labels);
        before[info.groupKey := Upserted(RowAt(before, info.groupKey), info, EventFor(r, a, now), debounce, maxWindow, now)]
  }

  method ProcessAlert(table: GroupTable, rules: seq<Rule>, a: Incoming, debounce: int, maxWindow: int, now: int)
    modifies table
    ensures table.rows == Ingested(old(table.rows), rules, a, debounce, maxWindow, now)
  {
    for i := 0 to |rules|
      invariant table.rows == Ingested(old(table.rows), rules[..i], a, debounce, maxWindow, now)
    {
      var r := rules[i];
      assert Init(rules[..i + 1]) == rules[..i];
      if !Matches(r, a.labels) {
        continue;
      }
      var status := a.status;
      if r.notificationOnly {
        status := "resolved";
      }
      var target := "";
      if r.targetLabel != "" {
        target := if r.targetLabel in a.labels then a.labels[r.targetLabel] else "";
      }
      var member := GroupMember(a.fingerprint, a.alertname, status, target, a.startsAt, a.endsAt, now,
                                a.displayTitle, a.displayFields, [], "");
      var key := ComputeGroupKey(r, a.labels);
      table.UpsertGroupMember(GroupInfo(key, r.channel, r.team, r.notificationOnly), member, debounce, maxWindow, now);
    }
    assert rules[..|rules|] == rules;
  }

  /** The group holds the alert and waits to be flushed. */
  predicate HoldsAlert(rows: Rows, key: string, a: Incoming, debounce: int, now: int) {
    && key in rows && rows[key].dirty && rows[key].updatedAt == now && rows[key].flushAfter <= now + debounce
    && a.fingerprint in rows[key].members
    && var m := rows[key].members[a.fingerprint]; m.startsAt == a.startsAt && m.alertname == a.alertname && m.updatedAt == now
  }

  lemma IngestOne(rows: Rows, r: Rule, a: Incoming, debounce: int, maxWindow: int, now: int, key: string)
    requires Matches(r, a.labels)
    ensures var info := InfoFor(r, a.labels);
      var row := Upserted(RowAt(rows, info.groupKey), info, EventFor(r, a, now), debounce, maxWindow, now);
      && HoldsAlert(rows[info.groupKey := row], info.groupKey, a, debounce, now)
      && (HoldsAlert(rows, key, a, debounce, now) ==> HoldsAlert(rows[info.groupKey := row], key, a, debounce, now))
  { }

  /** After an alert came in, every matching rule has a group that holds it and
      waits to be flushed, at the latest one debounce from now, with the status
      the rule gives it unless another matching rule of the same group gives it
      a different one. */
  lemma {:induction false} EveryMatchIsRecorded(rows: Rows, rules: seq<Rule>, a: Incoming, debounce: int, maxWindow: int, now: int, r: Rule)
    requires r in rules && Matches(r, a.labels)
    ensures HoldsAlert(Ingested(rows, rules, a, debounce, maxWindow, now), KeyPreimage(r, a.labels), a, debounce, now)
    ensures Agreed(rules, a, r) ==>
      Ingested(rows, rules, a, debounce, maxWindow, now)[KeyPreimage(r, a.labels)].members[a.fingerprint].status
        == if r.notificationOnly then "resolved" else a.status
  {
    var before := Init(rules);
    assert rules == before + [Last(rules)];
    if r in before {
      EveryMatchIsRecorded(rows, before, a, debounce, maxWindow, now, r);
    }
    if Matches(Last(rules), a.labels) {
      IngestOne(Ingested(rows, before, a, debounce, maxWindow, now), Last(rules), a, debounce, maxWindow, now, KeyPreimage(r, a.labels));
    }
  }

  /** The matching rules that share the group treat the alert alike. */
  predicate Agreed(rules: seq<Rule>, a: Incoming, r: Rule) {
    forall q | q in rules && Matches(q, a.labels) && KeyPreimage(q, a.labels) == KeyPreimage(r, a.labels) ::
      q.notificationOnly == r.notificationOnly
  }

  // ------------------------------------------------ the channel of a group

  /** The separators of the key are not used inside its parts. */
  predicate Unambiguous(r: Rule) {
    '|' !in r.name && '|' !in r.channel
  }

  /** A group belongs to one rule name and one channel text. */
  lemma KeyNamesChannel(r: Rule, q: Rule, a: map<string, string>, b: map<string, string>)
    requires Unambiguous(r) && Unambiguous(q) && KeyPreimage(r, a) == KeyPreimage(q, b)
    ensures r.name == q.name && r.channel == q.channel
  {
    var x := Join(KeyParts(Sort(if r.groupBy == [] then ["alertname"] else r.groupBy), a), ",");
    var y := Join(KeyParts(Sort(if q.groupBy == [] then ["alertname"] else q.groupBy), b), ",");
    assert KeyPreimage(r, a) == r.name + ['|'] + (r.channel + ['|'] + x);
    assert KeyPreimage(q, b) == q.name + ['|'] + (q.channel + ['|'] + y);
    FirstCut(r.name, r.channel + ['|'] + x, q.name, q.channel + ['|'] + y, '|');
    FirstCut(r.channel, x, q.channel, y, '|');
  }

  /** Every group sends to the channels of the rules that feed it. */
  ghost predicate ChannelsMatch(rows: Rows) {
    forall r, labels | Unambiguous(r) && KeyPreimage(r, labels) in rows :: rows[KeyPreimage(r, labels)].channel == r.channel
  }

  /** The channel of a row is set once; an event never finds a row with another
      channel than its rule's, since the channel is part of the key. */
  lemma {:induction false} ChannelNeverStale(rows: Rows, rules: seq<Rule>, a: Incoming, debounce: int, maxWindow: int, now: int)
    requires ChannelsMatch(rows) && forall r | r in rules :: Unambiguous(r)
    ensures ChannelsMatch(Ingested(rows, rules, a, debounce, maxWindow, now))
  {
    if rules != [] {
      var last := Last(rules);
      forall r | r in Init(rules) ensures Unambiguous(r) { assert r in rules; }
      ChannelNeverStale(rows, Init(rules), a, debounce, maxWindow, now);
      var before, after := Ingested(rows, Init(rules), a, debounce, maxWindow, now), Ingested(rows, rules, a, debounce, maxWindow, now);
      assert last in rules;
      forall r, labels | Unambiguous(r) && KeyPreimage(r, labels) in after
        ensures after[KeyPreimage(r, labels)].channel == r.channel
      {
        if Matches(last, a.labels) && KeyPreimage(r, labels) == KeyPreimage(last, a.labels) {
          KeyNamesChannel(r, last, labels, a.labels);
        }
      }
    }
  }
}
