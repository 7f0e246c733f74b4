/** The alerts of a group as they are stored, and the shallow JSON merge that
    records a new event about one of them. */
module Members {
  import opened Prelude

  /** A resolved (title, value) pair shown on the Slack card. */
  datatype MemberField = MemberField(title: string, value: string)

  /** One Slack message, in one of the rule's channels.  apiChannel is the
      channel Slack resolved the rule's ID to, empty when it is the same. */
  datatype NotifiedTarget = NotifiedTarget(channel: string, apiChannel: string, ts: string)

  datatype GroupMember = GroupMember(
    fingerprint: string,
    alertname: string,
    status: string,
    target: string,
    startsAt: int,
    endsAt: Option<int>,
    updatedAt: int,
    displayTitle: string,
    displayFields: seq<MemberField>,
    notifiedTargets: seq<NotifiedTarget>,
    notifiedStatus: string)

  type Members = map<string, GroupMember>

  /** Every stored alert sits under its own fingerprint. */
  predicate WellKeyed(members: Members) {
    forall fp | fp in members :: members[fp].fingerprint == fp
  }

  // ---------------------------------------------------------------- JSON

  datatype JsonKey =
    | Fingerprint | Alertname | Status | TargetLabel | StartsAt | EndsAt | UpdatedAt
    | DisplayTitle | DisplayFields | NotifiedTargets | NotifiedStatus

  datatype Json =
    | Text(text: string)
    | Time(time: int)
    | Fields(fields: seq<MemberField>)
    | Targets(targets: seq<NotifiedTarget>)

  type JsonObject = map<JsonKey, Json>

  /** Which keys json.Marshal writes: the omitempty ones only when non-empty. */
  predicate Present(m: GroupMember, key: JsonKey) {
    match key
    case TargetLabel => m.target != ""
    case EndsAt => m.endsAt.Some?
    case DisplayTitle => m.displayTitle != ""
    case DisplayFields => m.displayFields != []
    case NotifiedTargets => m.notifiedTargets != []
    case NotifiedStatus => m.notifiedStatus != ""
    case _ => true
  }

  function ValueOf(m: GroupMember, key: JsonKey): Json {
    match key
    case Fingerprint => Text(m.fingerprint)
    case Alertname => Text(m.alertname)
    case Status => Text(m.status)
    case TargetLabel => Text(m.target)
    case StartsAt => Time(m.startsAt)
    case EndsAt => Time(if m.endsAt.Some? then m.endsAt.value else 0)
    case UpdatedAt => Time(m.updatedAt)
    case DisplayTitle => Text(m.displayTitle)
    case DisplayFields => Fields(m.displayFields)
    case NotifiedTargets => Targets(m.notifiedTargets)
    case NotifiedStatus => Text(m.notifiedStatus)
  }

  function Marshal(m: GroupMember): JsonObject {
    map key: JsonKey | Present(m, key) :: ValueOf(m, key)
  }

  function TextAt(o: JsonObject, key: JsonKey): string {
    if key in o && o[key].Text? then o[key].text else ""
  }

  function TimeAt(o: JsonObject, key: JsonKey): int {
    if key in o && o[key].Time? then o[key].time else 0
  }

  /** json.Unmarshal into a zero struct: absent keys leave the zero value. */
  function Unmarshal(o: JsonObject): GroupMember {
    GroupMember(
      TextAt(o, Fingerprint), TextAt(o, Alertname), TextAt(o, Status), TextAt(o, TargetLabel),
      TimeAt(o, StartsAt),
      if EndsAt in o && o[EndsAt].Time? then Some(o[EndsAt].time) else None,
      TimeAt(o, UpdatedAt),
      TextAt(o, DisplayTitle),
      if DisplayFields in o && o[DisplayFields].Fields? then o[DisplayFields].fields else [],
      if NotifiedTargets in o && o[NotifiedTargets].Targets? then o[NotifiedTargets].targets else [],
      TextAt(o, NotifiedStatus))
  }

  /** What `stored || incoming` means for the struct: a mandatory field takes
      the incoming value, an omitempty field does so only when non-empty. */
  function Merge(stored: GroupMember, incoming: GroupMember): GroupMember {
    GroupMember(
      incoming.fingerprint, incoming.alertname, incoming.status,
      if incoming.target != "" then incoming.target else stored.target,
      incoming.startsAt,
      if incoming.endsAt.Some? then incoming.endsAt else stored.endsAt,
      incoming.updatedAt,
      if incoming.displayTitle != "" then incoming.displayTitle else stored.displayTitle,
      if incoming.displayFields != [] then incoming.displayFields else stored.displayFields,
      if incoming.notifiedTargets != [] then incoming.notifiedTargets else stored.notifiedTargets,
      if incoming.notifiedStatus != "" then incoming.notifiedStatus else stored.notifiedStatus)
  }

  lemma MarshalRoundTrip(m: GroupMember)
    ensures Unmarshal(Marshal(m)) == m
  {
    var o := Marshal(m);
    assert forall key: JsonKey :: key in o <==> Present(m, key);
  }

  lemma MergedAt(stored: GroupMember, incoming: GroupMember, key: JsonKey)
    ensures var merged := Merge(stored, incoming);
      && (Present(merged, key) <==> Present(stored, key) || Present(incoming, key))
      && (Present(merged, key) ==> ValueOf(merged, key) == ValueOf(if Present(incoming, key) then incoming else stored, key))
  { }

  /** The byte-level merge and the field-level merge are the same thing. */
  lemma MergeIsConcat(stored: GroupMember, incoming: GroupMember)
    ensures Marshal(stored) + Marshal(incoming) == Marshal(Merge(stored, incoming))
  {
    forall key: JsonKey { MergedAt(stored, incoming, key); }
  }

  /** The incoming event of a webhook never carries delivery bookkeeping. */
  predicate IsEvent(m: GroupMember) {
    m.notifiedTargets == [] && m.notifiedStatus == ""
  }

  /** The members column after an event about one alert. */
  function Recorded(members: Members, event: GroupMember): Members {
    members[event.fingerprint :=
      if event.fingerprint in members then Merge(members[event.fingerprint], event) else event]
  }

  function Encode(members: Members): map<string, JsonObject> {
    map fp | fp in members :: Marshal(members[fp])
  }

  function Decode(column: map<string, JsonObject>): Members {
    map fp | fp in column :: Unmarshal(column[fp])
  }

  /** `jsonb_set(members, {fp}, COALESCE(members -> fp, '{}') || event)`. */
  function JsonbSet(column: map<string, JsonObject>, fp: string, event: JsonObject): map<string, JsonObject> {
    column[fp := (if fp in column then column[fp] else map[]) + event]
  }

  /** Storing, merging in the database and reading back is `Recorded`. */
  lemma JsonUpsertIsRecorded(members: Members, event: GroupMember)
    ensures JsonbSet(Encode(members), event.fingerprint, Marshal(event)) == Encode(Recorded(members, event))
    ensures Decode(JsonbSet(Encode(members), event.fingerprint, Marshal(event))) == Recorded(members, event)
  {
    JsonUpsertColumn(members, event);
    DecodeEncode(Recorded(members, event));
  }

  lemma JsonUpsertColumn(members: Members, event: GroupMember)
    ensures JsonbSet(Encode(members), event.fingerprint, Marshal(event)) == Encode(Recorded(members, event))
  {
    var fp := event.fingerprint;
    if fp in members {
      MergeIsConcat(members[fp], event);
    } else {
      assert map[] + Marshal(event) == Marshal(event);
    }
  }

  lemma DecodeEncode(members: Members)
    ensures Decode(Encode(members)) == members
  {
    forall fp | fp in members ensures Unmarshal(Encode(members)[fp]) == members[fp] {
      MarshalRoundTrip(members[fp]);
    }
  }

  // ------------------------------------------------ the merge as a fold

  lemma MergeAssociative(a: GroupMember, b: GroupMember, c: GroupMember)
    ensures Merge(Merge(a, b), c) == Merge(a, Merge(b, c))
  { }

  /** A webhook retry changes nothing, whatever was stored before. */
  lemma RetryChangesNothing(members: Members, event: GroupMember)
    ensures Recorded(Recorded(members, event), event) == Recorded(members, event)
  { }

  lemma RecordedCommutes(members: Members, e: GroupMember, f: GroupMember)
    requires e.fingerprint != f.fingerprint
    ensures Recorded(Recorded(members, e), f) == Recorded(Recorded(members, f), e)
  {
    var l, r := Recorded(Recorded(members, e), f), Recorded(Recorded(members, f), e);
    assert l.Keys == r.Keys;
  }

  function RecordedAll(members: Members, events: seq<GroupMember>): Members {
    if events == [] then members else Recorded(RecordedAll(members, Init(events)), Last(events))
  }

  /** The last value a field took in events about fp, skipping empty values. */
  function LastNonEmpty<T(==)>(events: seq<GroupMember>, fp: string, field: GroupMember -> T, empty: T, start: T): T {
    if events == [] then start
    else if Last(events).fingerprint == fp && field(Last(events)) != empty then field(Last(events))
    else LastNonEmpty(Init(events), fp, field, empty, start)
  }

  predicate LastAbout(events: seq<GroupMember>, fp: string, i: nat) {
    i < |events| && events[i].fingerprint == fp &&
    forall j | i < j < |events| :: events[j].fingerprint != fp
  }

  /** What an alert that is not stored stands for: the empty object. */
  const NO_MEMBER := GroupMember("", "", "", "", 0, None, 0, "", [], [], "")

  function Stored(members: Members, fp: string): GroupMember {
    if fp in members then members[fp] else NO_MEMBER
  }

  /** What any series of events leaves of an alert, its first one included:
      the mandatory fields of the last event about it, the last non-empty value
      of every omitempty field, and the delivery bookkeeping exactly as it was. */
  lemma {:induction false} MergeFold(members: Members, events: seq<GroupMember>, fp: string, i: nat)
    requires LastAbout(events, fp, i)
    requires forall e | e in events :: IsEvent(e)
    ensures fp in RecordedAll(members, events)
    ensures var m := RecordedAll(members, events)[fp];
      && m.fingerprint == fp && m.alertname == events[i].alertname && m.status == events[i].status
      && m.startsAt == events[i].startsAt && m.updatedAt == events[i].updatedAt
    ensures var m, s := RecordedAll(members, events)[fp], Stored(members, fp);
      && m.target == LastNonEmpty(events, fp, (e: GroupMember) => e.target, "", s.target)
      && m.endsAt == LastNonEmpty(events, fp, (e: GroupMember) => e.endsAt, None, s.endsAt)
      && m.displayTitle == LastNonEmpty(events, fp, (e: GroupMember) => e.displayTitle, "", s.displayTitle)
      && m.displayFields == LastNonEmpty(events, fp, (e: GroupMember) => e.displayFields, [], s.displayFields)
      && m.notifiedTargets == s.notifiedTargets && m.notifiedStatus == s.notifiedStatus
  {
    FoldOptional(members, events, fp);
    FoldMandatory(members, events, fp, i);
  }

  lemma {:induction false} FoldMandatory(members: Members, events: seq<GroupMember>, fp: string, i: nat)
    requires LastAbout(events, fp, i)
    ensures fp in RecordedAll(members, events)
    ensures var m := RecordedAll(members, events)[fp];
      && m.fingerprint == fp && m.alertname == events[i].alertname && m.status == events[i].status
      && m.startsAt == events[i].startsAt && m.updatedAt == events[i].updatedAt
  {
    if i < |events| - 1 {
      assert LastAbout(Init(events), fp, i);
      FoldMandatory(members, Init(events), fp, i);
    }
  }

  lemma {:induction false} FoldOptional(members: Members, events: seq<GroupMember>, fp: string)
    requires forall e | e in events :: IsEvent(e)
    ensures var m, s := Stored(RecordedAll(members, events), fp), Stored(members, fp);
      && m.target == LastNonEmpty(events, fp, (e: GroupMember) => e.target, "", s.target)
      && m.endsAt == LastNonEmpty(events, fp, (e: GroupMember) => e.endsAt, None, s.endsAt)
      && m.displayTitle == LastNonEmpty(events, fp, (e: GroupMember) => e.displayTitle, "", s.displayTitle)
      && m.displayFields == LastNonEmpty(events, fp, (e: GroupMember) => e.displayFields, [], s.displayFields)
      && m.notifiedTargets == s.notifiedTargets && m.notifiedStatus == s.notifiedStatus
  {
    if events != [] {
      FoldOptional(members, Init(events), fp);
      assert IsEvent(Last(events));
    }
  }
}
