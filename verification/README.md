# alertory: grouped delivery to Slack, verified

alertory takes Alertmanager webhooks, gathers alerts into groups, and keeps one
Slack message per incident: posted once, then edited in place. This project
models how it does that and proves what its documentation promises
(the repository's `README.md`, line 9, and `docs/RULES.md:25-27`), for all inputs and over whole runs.

The model follows the program's structure:

- `Members`, `Groups`: the `alert_groups` row, the JSON merge of an event into
  it, and the SQL steps on the table (a class whose methods change it).
- `Batching`, `Message`, `Cards`: the division of a group into messages, the card
  of each, and what can be read off a card.
- `Slack`, `Flush`, `Worker`: the calls made for a group. Slack is an oracle:
  every call may be refused or accepted, in any sequence.
- `Protocol`: webhooks, any number of flush workers that take their steps one
  by one, and the cleanup job, as interleaved atomic steps on one row; a run is
  any valid sequence of them.
- `Ledger`, `Delivery`, `Serialised`: the invariant of serialised runs, also in
  the middle of a flush. Serialised means that one worker at a time holds the
  group, and that no cleanup comes between its claim and its save. Webhooks may
  land at any moment, and Slack may refuse anything.
- `Guarantees`, `Agreement`, `Convergence`, `Repeats`, `Timing`, `Tokens`,
  `Bursts`, `History`, `Reduction`: the promises.
- `Display`: which messages agree with the table after a flush, whatever Slack
  refuses.
- `Single`, `FirstMessage`: groups of one alert, and the ordinary run from nothing
  to the first message; it shows that the hypotheses below can be met.
- `Crashes`, `Holders`, `Reposts`, `Recovery`: workers that hold a group at the
  same time or crash, in any number, and which promises survive them. `Pitfalls`: what else the code does otherwise than its
  texts say, and inputs on which the promises fail.
- `Texts`, `Channels`, `Forms`, `Reading`, `Rules`, `Routing`: the rule form's
  parsers and printers, what its texts mean entry by entry, the channel list, the
  group key, and the way from an alert to its groups.

Hypotheses of a serialised run, besides the above: the rule names at least one
channel and no channel contains `=` or `|`; Slack's timestamps contain no `|`;
statuses are not empty; and two accepted posts never share a timestamp in the
same channel. `Batching.KeysCollide` shows why the characters matter; `Routing.LabelsCollide`
shows the same of `,` in labels a rule groups by.

Times are whole seconds, as the SQL intervals are; the zero time is 0. The
application's clock and the database's are one.

## Where the code and its texts disagree

The model follows the code.

- The lease (`internal/workflows/flush.go:17-20`, `internal/db/groups.go:162-164`,
  `docs/ARCHITECTURE.md:80`) is said to bring a group back after a crash. A
  claim clears `dirty` and only dirty rows are claimed, so only a webhook does:
  `Pitfalls.LeaseRecoversNothing`, `Pitfalls.WebhookRearms`. "Never re-posted"
  survives crashes exactly when the crashed workers had no post accepted
  (`Reposts.CrashReposts`, and `Crashes.CrashIsSurvived` for the bookkeeping all
  promises about posts rest on; `Pitfalls.CrashPostsTwice` is an input on which it
  fails). After a crash a message agrees with the table exactly when the last
  accepted call since the first claim reported the table's statuses, or, without
  such a call, when it agreed before and no status changed
  (`Recovery.LastCallDecides`); `Pitfalls.CrashHidesReport` and
  `Pitfalls.CrashLeavesStaleMessage` are inputs on which it does not, beside a
  clean row and with nothing refused. When no post was accepted, the next flush
  that Slack takes completely mends exactly the messages whose buckets it finds
  changed (`Recovery.FlushAfterCrash`).
- "Without double-sending" (`internal/db/groups.go:159-161`): a webhook between
  claim and save re-arms the row, and a second worker may claim it. As long as
  both claimed before anything was saved, calls of theirs for an alert are two
  posts exactly when it had no message in the channel at the first claim, even if
  one has saved by then (`Holders.HoldersPostTwice`, and `Crashes.CallsRepeat` for
  all calls until the first save; `Pitfalls.TwoHoldersPostTwice` is an input). How
  many workers can hold a group is `Tokens.ClaimsAreBounded`.
- A save writes the whole members column from the snapshot, so a webhook that
  landed meanwhile may be lost: `Pitfalls.LateWebhookSurvives` says when, and
  `Pitfalls.WebhookIsLost` is an input.
- "Capped exponential backoff" (`internal/db/groups.go:246-249`) is linear and
  capped: `Timing.BackoffWaits`.
- `flush_after` "never past first_event_at + maxWindow" does not hold for the
  first event when the debounce is longer than the window: `Timing.DebounceLaw`.
- "Retries only the failed destination" (`docs/RULES.md`, Multiple
  destinations): a bucket that is sent again is sent to every channel, and only
  the channels without a message are called exactly when there is no message at
  all (`Pitfalls.RetryCallsEveryChannel`; `Pitfalls.RetryUpdatesTheOther` is an
  input).
- After a refused update a message catches up exactly when a later flush finds
  its bucket changed (`Display.MessageAfterGoodFlush`). When the status flips
  back first, it stays stale beside a clean row:
  `Pitfalls.FlapLeavesStaleMessage` is an input.
- `internal/db/migrate.go:95-97` says a fully resolved row is deleted by its
  last flush; `internal/db/groups.go:218-231` and the code keep it
  (`Groups.GroupTable.SaveGroupProgress`), until
  `Groups.GroupTable.CleanupResolvedGroups`.
- The channel of a row is set at insert and, unlike team and style, never
  refreshed (`internal/db/groups.go:146-147`), although the comment at
  `internal/db/groups.go:94-100` speaks of the whole of the rule's data. It never
  needs to be: the channel is part of the group key
  (`Rules.KeyNamesChannel`, `Rules.ChannelNeverStale`, for rule names and channels
  without `|`), so an edited channel starts a new group.

## Model

| member | source | states |
|---|---|---|
| Guarantees.NeverReposted | internal/workflows/flush.go:104-131 | in every serialised run, whatever Slack refuses and whenever webhooks land: once a post for an alert in a channel is accepted, every later call for both is an update of that very message where Slack put it, and nothing is updated that was not posted for that alert and channel |
| Guarantees.MessagesAndChannels | internal/workflows/flush.go:99-149 | in every reachable state two alerts share all their messages or none; an alert's messages follow the rule's channel list without repeats, and are all of it once it counts as shown |
| Guarantees.NoForgottenWork | internal/workflows/flush.go:152-161 | a bucket that needs sending implies that its row waits to be claimed or is held, after any history of failures |
| Guarantees.MessagesForEver | internal/workflows/flush.go:104-149 | from any reachable state on, no alert loses a message, and messages never merge or split, in the middle of a flush as well |
| Guarantees.EachGroupIsSerial | internal/workflows/flush.go:53-55 | the promises of a serialised run hold for each group of a system whose other groups do anything in between |
| Serialised.RunKeeps | internal/db/groups.go:121-286 | every step of every worker, webhook and cleanup keeps the agreement between the table and the calls made |
| Serialised.StepKeeps | internal/db/groups.go:121-286 | the same for one step, by whichever actor |
| Serialised.LateUpsertKeeps | internal/db/groups.go:139-152 | a webhook landing while the group is held leaves the holder's bookkeeping in agreement with Slack |
| Serialised.WorkKeeps | internal/workflows/flush.go:92-150 | a skip, a call or a write-back keeps it, with part of a bucket's calls made |
| Serialised.RunStatus | internal/workflows/rules.go:44-47 | in serialised runs every alert has a status, in the table and in every snapshot |
| Delivery.CallsPostOnce | internal/workflows/flush.go:106-131 | the calls of a bucket, or any first part of them, never post an alert a second time to a channel |
| Delivery.CallsUpdatePosted | internal/workflows/flush.go:107-117 | and update only messages posted for all the alerts they carry |
| Delivery.DeliveredBook | internal/workflows/flush.go:133-149 | after a bucket's write-back every accepted post is remembered by its alerts, every remembered message was posted for them, and messages belong to one bucket only |
| Delivery.DeliveredOthers | internal/workflows/flush.go:137-149 | delivering one bucket leaves the others as they were claimed |
| Ledger.BucketIsGood | internal/workflows/batching.go:53-65 | gathering alerts by string key gathers exactly those that share their messages |
| Ledger.KeptAre | internal/workflows/flush.go:104-131 | whatever is refused, the kept targets are the old ones and one per accepted post, in channel order, and cover all channels if nothing was refused |
| Ledger.ExistingExact | internal/workflows/flush.go:99-102 | with one target per channel, the per-channel map finds each target under its channel and nothing else |
| Slack.MadeTargetAddress | internal/workflows/flush.go:126-130 | the target kept for an accepted post names the channel and timestamp under which Slack keeps the message, resolved direct messages included |
| Agreement.SlackShowsTheTable | internal/workflows/message.go:84-123 | in serialised runs in which no update is refused, whenever a row is neither waiting nor held, every channel of the rule has a message for every alert; its title carries the RESOLVED marker and the counts of the current statuses of the alerts that share it, and its colour says whether all of them are resolved |
| Agreement.RunAgrees | internal/workflows/flush.go:92-150 | every step keeps each message in step with the status its alerts were last shown with |
| Agreement.DeliveredFaithful | internal/workflows/flush.go:133-149 | a bucket's write-back records as shown just what its message now shows, and no other message changes |
| Convergence.OneGoodFlushConverges | internal/workflows/flush.go:86-162 | after any history of failures one flush without refusals leaves a clean row, every alert with a message in every channel and counted as shown with its status, and no bucket changed; flushing again makes no call and changes no alert |
| Display.MessageAfterFlush | internal/workflows/flush.go:92-150 | from any reachable state, whatever Slack refused before and refuses now: after a flush an alert's message shows the alerts that share it with their statuses in the table if and only if the flush rewrote or posted it, or it did so before |
| Display.MessageAfterGoodFlush | internal/workflows/batching.go:86-99 | when Slack refuses nothing of the flush: if and only if the alert's bucket was changed, or the message did so before |
| Display.CurrentTitle | internal/workflows/message.go:110-123 | such a message carries the marker, the counts and the colour of the current statuses |
| Convergence.FlushIsARun | internal/workflows/flush.go:86-162 | every flush in one step is reached by a claim, a worker's steps and its save |
| Convergence.FlushKeeps | internal/workflows/flush.go:86-162 | so it keeps everything those keep |
| FirstMessage.FirstEventIsPosted | internal/workflows/flush.go:104-150 | the first event of an alert leads, by a serialised run, to one accepted post per channel of the rule, in order, and a clean row |
| Convergence.WorkToTheEnd | internal/workflows/flush.go:92-161 | a worker left alone reaches its save in finitely many steps |
| Reduction.InterleavingIsAtomic | internal/workflows/flush.go:41-56 | any interleaving of webhooks, workers and cleanups over any number of groups, undisturbed between claims and saves, ends with the rows and Slack logs of the valid run in which each flush is one step at its claim |
| Reduction.CollapseFree | internal/workflows/flush.go:86-162 | the same for the steps of one group |
| Reduction.StepsCommute | internal/db/groups.go:172-179 | steps on different groups commute and do not enable or disable each other |
| Reduction.Local | internal/db/groups.go:172-213 | what becomes of a group in an interleaved run is what its own steps make of it |
| Reduction.AtomicLocal | internal/workflows/flush.go:53-55 | gathering the flushes of the system gathers those of each group |
| Crashes.CrashIsSurvived | internal/workflows/flush.go:17-20 | any number of workers claim a group, make any part of their calls and crash, with webhooks landing at any time: after the next webhook the bookkeeping of the group agrees with the calls made, in the sense kept by serialised runs, if and only if no post was accepted meanwhile |
| Crashes.CrashKeepsAgreement | internal/workflows/flush.go:112-116 | over the same runs what the row records as shown is still what Slack shows if and only if no update of a message of an alert that counts as shown was accepted |
| Recovery.LastCallDecides | internal/workflows/flush.go:106-131 | over the same runs, at any time: a message that an accepted call since the first claim reached shows the alerts that share it with their statuses in the table if and only if the last such call reported those statuses; any other if and only if what it showed at the first claim agrees with the table, which for a message that agreed then means that no status changed |
| Recovery.FlushAfterCrash | internal/workflows/batching.go:86-99 | when no crashed worker had a post accepted: after the flush that follows, a message agrees with the table if and only if the flush reached it or it agreed before; when Slack takes every call, if and only if its bucket was changed or it agreed before |
| Reposts.CrashReposts | internal/db/groups.go:238-242 | over the same runs, the next flush, whatever Slack makes of it, sends no alert as a second post to a channel if and only if none of the crashed workers had a post accepted |
| Crashes.CallsRepeat | internal/db/groups.go:238-242 | over any run without a save, by any number of workers: two accepted calls for an alert in a channel are two posts if and only if the alert had no message there, at the first claim and so at every later one |
| Holders.HolderKeepsBuckets | internal/workflows/flush.go:86-92 | no step but a worker's own save or crash changes what it is to deliver |
| Holders.HolderCalls | internal/workflows/flush.go:99-131 | a worker that claimed before anything was saved posts an alert to a channel if and only if the alert had no message there at the first claim, whatever others have posted and saved since |
| Holders.HoldersPostTwice | internal/db/groups.go:159-164 | accepted calls of two such workers for an alert in a channel are two posts if and only if it had no message there at the first claim |
| Crashes.RunStands | internal/db/groups.go:139-152 | until something is saved the table's delivery bookkeeping stays what it was, and every call is the one that bookkeeping asks for |
| Crashes.LedgerAfterCrash | internal/db/groups.go:238-242 | what the row remembers covers the calls made since the claim exactly when none was an accepted post |
| Pitfalls.LeaseRecoversNothing | internal/db/groups.go:175-208 | after its only holder crashed, nothing but a cleanup touches a group at any time until a webhook does |
| Pitfalls.WebhookRearms | internal/db/groups.go:148-151 | and then it is due exactly from the earlier of debounce and window on |
| Pitfalls.LateWebhookSurvives | internal/db/groups.go:238-242 | after the save every alert is as reported at the claim; all that a webhook reported between claim and save is in the table if and only if the snapshot had it already; the row is due again if and only if a call failed |
| Pitfalls.RetryCallsEveryChannel | internal/workflows/flush.go:106-131 | a bucket that is sent is sent to every channel, with an update exactly where it has a message; only channels without a message are called if and only if it has none anywhere |
| Tokens.ClaimsAreBounded | internal/db/groups.go:172-209 | in any interleaving, crashes and late webhooks included: open claims, plus one if the row waits, are at most one more than the webhooks that landed while it was held |
| Tokens.SecondHolderNeedsUpsert | internal/db/groups.go:159-164 | two workers hold one group only if a webhook came in between |
| Timing.DebounceLaw | internal/db/groups.go:109-152 | any storm of events before the first claim flushes `debounce` after its last but at most `maxWindow` after its first, exactly unless it is a lone event with a debounce longer than the window |
| Timing.DeadlineIsForLife | internal/db/groups.go:137-151 | the window is set at insert and never moves, so past it every event makes the group due at once |
| Timing.BackoffWaits | internal/db/groups.go:256-259 | waits are between 10 and 300 seconds, never decrease, and reach the cap with the thirtieth failure |
| Timing.BackoffBound | internal/db/groups.go:250-266 | after k failed passes in a row the next is at least 5k(k+1) seconds, past thirty 4650 + 300(k-30), after the first failure |
| Timing.BackoffBoundForWorkers | internal/db/groups.go:250-266 | the same for workers that take their steps one by one |
| History.RowRemembersWrites | internal/db/groups.go:238-265 | in any run, crashes, refusals and several workers included, `updated_at` is the time of the last webhook or save, be it of a failed pass |
| History.CleanupDecides | internal/db/groups.go:273-286 | after any run a cleanup deletes the row if and only if the last webhook or save is more than the given age ago and every alert of the group is resolved |
| History.UnresolvedRowStays | internal/db/groups.go:276-280 | a row of which some alert is unresolved at every cleanup stays, over any run |
| History.RecentRowStays | internal/db/groups.go:263 | a row stays as long as no cleanup comes more than the given age after the last webhook or save, failed saves included |
| History.NoWorkIsCleanedAway | internal/db/groups.go:246-249 | so no cleanup deletes work undone: in such serialised runs the row is there, and a bucket that needs sending finds it waiting or held |
| History.RetryComesFirst | internal/db/groups.go:256-265 | after a failed pass the group is due again within 300 seconds, and no cleanup deletes it within the given age |
| History.RowFollowsRule | internal/db/groups.go:94-100 | in any run the row has the team and style of the last webhook |
| History.CallsFollowRule | internal/workflows/flush.go:89-97 | every call of a worker's pass carries the team and style of the last webhook before its claim |
| History.RowCountsFailures | internal/db/groups.go:149-263 | in any run the row's attempts are the failed passes saved since the last webhook or good pass |
| History.WebhookResetsBackoff | internal/db/groups.go:149 | the first failed pass after a webhook waits exactly ten seconds, whatever failed before it, and the bound for further ones counts from there |
| History.WebhookResetsBackoffForWorkers | internal/db/groups.go:149 | the same for workers that take their steps one by one |
| History.FirstEventInserts | internal/db/groups.go:130-138 | the first event of a group settles its channel, its window and its first alert |
| History.ClaimOnlyMarks | internal/db/groups.go:205-209 | a claim clears `dirty` and moves `flush_after` by the lease; the row is otherwise as it was, and the worker has its alerts |
| Repeats.RepeatsAreAbsorbed | internal/db/groups.go:218-231 | once the alerts that share a message are shown with their statuses, no call carries any of them while webhooks about them repeat those statuses, in any serialised run that keeps the row, whatever the other alerts of the group do and whatever Slack refuses |
| Repeats.RepeatsKeepTheRow | internal/db/groups.go:273-286 | the row is kept as long as no cleanup comes more than the cleanup's age after the last repetition, whatever other steps are taken |
| Repeats.RepeatsInTime | cmd/app/main.go:132 | so in such runs the row is kept and no call carries the alerts |
| Repeats.CleanIsSettled | internal/db/groups.go:218-244 | in every reachable clean row every alert is in that situation |
| Repeats.QuietGroupStaysQuiet | internal/db/groups.go:218-231 | a group in which all is shown and only repeated stays so and makes no call, over any interleaving, several workers and crashes included |
| Repeats.CleanIsQuiet | internal/db/groups.go:218-244 | every reachable clean row is in that situation |
| Repeats.NotificationsAreSentOnce | internal/workflows/rules.go:32-47 | alerts of a notification-only rule are posted at most once per channel and never edited when Slack refuses nothing |
| Flush.ExistingByChannel | internal/workflows/flush.go:99-102 | the loop builds the per-channel map, the last entry of a channel winning |
| Flush.LastTargetCounts | internal/workflows/flush.go:99-102 | the last target of a channel is the one the map has |
| Flush.DeliverOne | internal/workflows/flush.go:107-130 | makes the one call the channel needs, keeps an existing target even when its update is refused, and adds one only for an accepted post |
| Flush.DeliverBucket | internal/workflows/flush.go:104-131 | makes one call per channel in order, each with the bucket's card, keeps what each leaves, and reports a failure if any was refused |
| Flush.StampMembers | internal/workflows/flush.go:137-149 | all alerts of the bucket and no others get the new targets; they count as shown only when nothing was refused |
| Flush.DeliverBuckets | internal/workflows/flush.go:91-150 | delivers the changed buckets one after the other and touches nothing of the unchanged |
| Worker.ProcessGroup | internal/workflows/flush.go:86-162 | whatever order maps are walked in, the calls made and the row left are those of a legal division of the group, saved as failed exactly when a call was refused |
| Worker.ProcessGroups | internal/workflows/flush.go:53-55 | claimed groups are processed one after the other, each from its own snapshot |
| Worker.FlushDueGroups | internal/workflows/flush.go:41-56 | a tick claims due groups, earliest first, and leaves table and Slack as their flushes one after the other do |
| Worker.BatchClaimIsManyClaims | internal/db/groups.go:172-213 | claiming a batch is, for every group of it, the protocol's claim step, and nothing for the others |
| Worker.ProcessingIsTheFlushStep | internal/workflows/flush.go:86-162 | what the loops do for a claimed group is the protocol's flush step on the group's own row and log, wherever the client stands, and touches no other row |
| Worker.TickIsFlushSteps | internal/workflows/flush.go:41-56 | a tick is a flush step of each group it claimed, on that group's row and log |
| Worker.TickLeavesOthers | internal/workflows/flush.go:41-56 | and leaves every other row as it was |
| Groups.GroupTable.UpsertGroupMember | internal/db/groups.go:121-157 | inserts or merges; the row waits with a fresh debounce under an unmoved deadline, without failed attempts, with the event's team and style; its channel and other alerts stay |
| Groups.GroupTable.ClaimDueGroups | internal/db/groups.go:165-216 | takes at most `limit` rows that are due and not locked, earliest first, leaves none out that is earlier than one taken, and clears exactly those |
| Groups.GroupTable.SaveGroupProgress | internal/db/groups.go:232-244 | keeps the row with the snapshot's members, clean and without failed attempts; no row, no effect |
| Groups.GroupTable.SaveGroupProgressFailed | internal/db/groups.go:250-267 | keeps what succeeded and re-arms the row as just written, counting on the row's attempts and waiting by the snapshot's |
| Groups.GroupTable.CleanupResolvedGroups | internal/db/groups.go:273-286 | deletes exactly the rows last written before the given age all of whose alerts have status resolved, leaves the others as they are, and reports how many |
| Members.MarshalRoundTrip | internal/db/groups.go:52-78 | leaving out empty fields loses nothing |
| Members.MergeIsConcat | internal/db/groups.go:140-145 | the JSON concatenation of a stored and an incoming alert is the field-wise merge in which an omitted field keeps its stored value |
| Members.JsonUpsertIsRecorded | internal/db/groups.go:114-145 | jsonb_set over the column, read back, is that merge under the alert's fingerprint and nothing else |
| Members.DecodeEncode | internal/db/groups.go:194-195 | the column read back holds the alerts as they were written |
| Members.MergeAssociative | internal/db/groups.go:143 | merging is associative |
| Members.RetryChangesNothing | internal/db/groups.go:114-120 | a webhook delivered twice changes no alert |
| Members.RecordedCommutes | internal/db/groups.go:140-145 | events of different alerts may come in either order |
| Members.MergeFold | internal/db/groups.go:53-77 | after any sequence of events about an alert, its first included, each mandatory field is the last value, each optional one the last non-empty value, and the delivery bookkeeping is untouched |
| Batching.ComputeTargetKey | internal/workflows/batching.go:23-33 | computes the sorted and joined key |
| Batching.TargetKeyExact | internal/workflows/batching.go:20-33 | for clean channels and timestamps two target lists have the same key if and only if they are the same messages, in any order and counted |
| Batching.KeysCollide | internal/workflows/batching.go:29 | with `=` in a channel different messages can share a key |
| Batching.GatherMembers | internal/workflows/batching.go:53-65 | in whatever order the alerts are walked, each ends in the bucket of its key or among the unsent |
| Batching.ListBuckets | internal/workflows/batching.go:67-70 | in whatever order the map is walked, each of its buckets is listed, and nothing else |
| Batching.BuildBuckets | internal/workflows/batching.go:49-84 | in whatever order the maps are walked, the result is a legal division |
| Batching.BucketsPartition | internal/workflows/batching.go:35-48 | in a legal division each alert is in exactly one bucket; sent alerts are together if and only if their keys agree, unsent ones if and only if they outnumber the threshold |
| Batching.FewFreshMessages | internal/workflows/batching.go:43-47 | however many alerts were never sent, they are divided into at most `threshold` buckets, or one |
| Bursts.BurstIsBounded | internal/workflows/batching.go:43-48 | a flush posts at most `threshold` messages, or one, to a channel for the alerts of a group that were never sent |
| Batching.ComputeBucketChanged | internal/workflows/batching.go:89-99 | a bucket is sent again exactly when it has no message or some status differs from the one shown |
| Message.RenderIndividual | internal/workflows/message.go:55-82 | the card of a single alert, field by field |
| Message.MemberLines | internal/workflows/message.go:166-186 | the first twenty alerts by their captions, then how many are left |
| Message.JoinSorted | internal/workflows/message.go:188-195 | the elements of a set in the one sorted order, joined |
| Message.SortByStart | internal/workflows/message.go:85 | some order by start of the same alerts |
| Message.Gather | internal/workflows/message.go:87-108 | the loop's counters, extremes and sets are the numbers of resolved and other alerts, the least non-zero start, the greatest end of a resolved alert, and the sets of titles and targets |
| Message.RenderBatch | internal/workflows/message.go:84-154 | the card carries the counts, extremes and names of its alerts and lists them by start |
| Message.RenderBucketMessage | internal/workflows/message.go:48-53 | one alert gets the detailed card, more get the summary |
| Message.CountedAll | internal/workflows/message.go:100-107 | firing and resolved add up to the alerts |
| Message.LinesAddUp | internal/workflows/message.go:166-186 | the lines and the "more" count add up to the alerts |
| Message.OnlyLinesDiffer | internal/workflows/message.go:84-154 | for any two arrival orders, and any way of sorting ties, two cards differ at most in the order of the listed alerts |
| Message.CardUnique | internal/workflows/message.go:85-153 | when no two alerts start together the card is the same for every order |
| Cards.SingleColour | internal/workflows/message.go:56-62 | a single card is green, and marked, if and only if the rule has a lifecycle and the alert is resolved; its name is the display title, else the alert name |
| Cards.SingleField | internal/workflows/message.go:64-79 | exactly which fields a single card has: team and target when known, the start for a rule with a lifecycle, the end of a resolved alert that has one, and the extras listed |
| Cards.SingleOrder | internal/workflows/message.go:64-79 | in one order, the extras last and as listed |
| Cards.BatchColour | internal/workflows/message.go:112-123 | a summary is green, and marked, if and only if the rule has a lifecycle and all alerts are resolved; the counts are those of unresolved and resolved alerts |
| Cards.BatchName | internal/workflows/message.go:92-110 | its name is the sorted list of the alerts' titles, each once |
| Cards.BatchField | internal/workflows/message.go:125-144 | exactly which fields it has: the one target all share, or how many there are, the least start, and the greatest end once all are resolved |
| Cards.BatchList | internal/workflows/message.go:146-186 | its last field lists the alerts by start: the first twenty by target or title, marked when resolved, and how many are left |
| Cards.BatchOrder | internal/workflows/message.go:125-151 | its fields come in the same one order |
| Cards.GreenMeansResolved | internal/workflows/message.go:58-121 | whatever the number of alerts, green says that all are resolved |
| Channels.SplitChannels | internal/workflows/flush.go:63-76 | computes the distinct, trimmed, non-empty entries in order |
| Channels.ParseCSV | internal/http/webui.go:594-603 | computes the trimmed, non-empty entries in order |
| Channels.NormalizeChannelList | internal/http/webui.go:611-623 | prints the channel list of the raw text |
| Channels.ChannelListFacts | internal/workflows/flush.go:58-76 | no channel is named twice, none is empty or padded, none is invented or lost, and the order is kept |
| Channels.NormalizedMeansTheSame | internal/http/webui.go:605-611 | normalising does not change the channels a rule notifies, and normalising twice is normalising once |
| Channels.CsvRoundTrip | internal/http/webui.go:594-603 | printed tidy lists are read back as they were |
| Channels.GroupByRoundTrip | internal/http/webui.go:305-346 | the group-by list shown in the form is read back the same |
| Reading.CsvEntry | internal/http/webui.go:596-601 | one more entry counts, trimmed, unless it is blank |
| Reading.ChannelEntry | internal/workflows/flush.go:67-74 | one more channel counts unless it is blank or there already |
| Reading.LineMeans | internal/http/webui.go:536-544 | a line means what stands before its first `=` and what stands after it, trimmed |
| Reading.LineWithout | internal/http/webui.go:541-543 | a line without `=` means nothing |
| Reading.LabelsLine | internal/http/webui.go:535-545 | one more line of labels replaces an earlier value of its key |
| Reading.LabelsOtherLine | internal/http/webui.go:537-543 | any other line changes nothing |
| Reading.FieldsLine | internal/http/webui.go:572-581 | one more line of fields is one more field, unless a part of it is blank |
| Reading.FieldsOtherLine | internal/http/webui.go:569-575 | any other line changes nothing |
| Reading.LabelsPrinted | internal/http/webui.go:549-561 | labels are printed one per line, sorted by key |
| Reading.FieldsPrinted | internal/http/webui.go:586-592 | fields are printed one per line, in order |
| Forms.ParseLabels | internal/http/webui.go:533-547 | computes the key=value lines as a map, the last line of a key winning |
| Forms.FormatLabels | internal/http/webui.go:549-561 | prints the labels sorted by key, one per line |
| Forms.ParseFieldList | internal/http/webui.go:565-584 | computes the complete Title=key lines in order, repeats included |
| Forms.FormatFieldList | internal/http/webui.go:586-592 | prints the fields in order, one per line |
| Forms.LabelsTidy | internal/http/webui.go:533-547 | whatever was typed, the labels read are ones that print unambiguously |
| Forms.LabelsRoundTrip | internal/http/webui.go:533-561 | such labels, printed and read again, are the same map, also when the browser returns CRLF line breaks |
| Forms.FieldListTidy | internal/http/webui.go:563-584 | whatever was typed, the fields read print unambiguously |
| Forms.FieldsRoundTrip | internal/http/webui.go:563-592 | such fields, printed and read again, are the same list, also with CRLF |
| Rules.ReadForm | internal/http/webui.go:339-357 | a form becomes a rule unless its name is blank or it names no channel, each part of the rule read from the part of the form of that name |
| Rules.ResavingChangesNothing | internal/http/webui.go:293-352 | opening a saved rule and saving it again unchanged stores the same rule |
| Rules.ResavingKeepsGroups | internal/workflows/rules.go:138-156 | and leaves every alert in its group |
| Rules.ComputeGroupKey | internal/workflows/rules.go:138-154 | computes the text that is hashed into the group key |
| Rules.KeyIgnoresOrder | internal/workflows/rules.go:144-146 | the order of the group-by labels does not matter |
| Rules.SameLabelsSameGroup | internal/workflows/rules.go:133-151 | alerts that agree on the group-by labels, or on the alertname when there are none, are in one group |
| Routing.GroupsByLabels | internal/workflows/rules.go:133-151 | for labels without the separator, two alerts are in one group of a rule if and only if they agree on every label it groups by, a missing one counting as empty |
| Routing.DifferentAlertsApart | internal/workflows/rules.go:133-151 | alerts that differ on such a label are stored under different keys, and the second leaves the group of the first alone |
| Routing.RuleTakes | internal/workflows/rules.go:60-80 | a rule all of whose labels an alert carries stores it in the group of its labels with all that it says, the rule's team and style, and touches nothing else |
| Routing.OthersPass | internal/db/rules.go:71-78 | a rule that asks for a label the alert lacks or has with another value changes nothing |
| Routing.RulesInTurn | internal/workflows/rules.go:27-83 | the rules are taken one after the other |
| Rules.EventFor | internal/workflows/rules.go:44-70 | an event carries no delivery bookkeeping, and is resolved from the start for a notification-only rule |
| Rules.ProcessAlert | internal/workflows/rules.go:26-84 | records the alert for each matching rule in turn and for no other |
| Rules.EveryMatchIsRecorded | internal/workflows/rules.go:26-84 | afterwards every matching rule has a group that holds the alert and waits, at most one debounce long, with the status the rule gives it unless another matching rule of the same group gives it another |
| Rules.KeyNamesChannel | internal/workflows/rules.go:153-155 | a group key belongs to one rule name and one channel text when neither contains the separator |
| Rules.ChannelNeverStale | internal/db/groups.go:146-147 | an event never finds a row with another channel than its rule's |
| Texts.SortPermutation | internal/workflows/batching.go:31 | two lists sort to the same if and only if they hold the same entries |
| Texts.SplitJoinPadded | internal/http/webui.go:305-346 | splitting a joined list gives back its entries, with the padding of the separator in front |
| Texts.TrimPadded | internal/http/webui.go:536 | trimming undoes any padding |
| Reading.TrimIs | internal/http/webui.go:536 | trimming takes off spaces, at both ends, all of them and nothing else |
| Reading.JoinSplit | internal/http/webui.go:535 | splitting loses nothing |
| Reading.SplitSnoc | internal/http/webui.go:535 | the last entry of a split text ends at its last separator |
| Reading.OrderIs | internal/workflows/batching.go:31 | sorting is by the first character in which two texts differ |

## Left out

- The Slack HTTP client (`internal/slack/client.go`): kept as an oracle that refuses, or accepts with a channel and a timestamp; that its answers are fresh is a hypothesis.
- The text of the card: times, colours and numbers are kept as the values they show, and truncation of long values is not modelled.
- Enrichment calls, title templates and the case-insensitive key lookup: title and extra fields are inputs of an alert.
- SHA-1 and its truncation: group keys are the text that is hashed.
- Postgres: each statement or transaction is one step, and SKIP LOCKED is a set of rows locked by others; a database error is not modelled.
- JSON bytes and the columns rule_name, last_error, first_event_at and last_flushed_at, which no decision reads.
- The order sort.Slice gives to alerts that start together is any order; the in-place sort of a bucket's slice is a new list, since nothing reads its order afterwards.
- Aliasing in buildBuckets: buckets are values in a map, written back when an alert is appended.
- Calls of different groups: each group has its own log, so freshness is required among the posts of one group.
- Guarantees.NeverReposted: does not cover runs with a second holder or a crash, because the code does not keep it there (`Holders.HoldersPostTwice` and `Reposts.CrashReposts` say when it fails), nor runs with a cleanup between claim and save, where an update may concern a message older than the row (`Pitfalls.CleanupUnderWay` is an input).
- Agreement.SlackShowsTheTable: covers titles (marker and counts), and does not cover runs in which an update is refused, because the code does not keep it there; `Display.MessageAfterFlush` says of every flush which messages agree.
- Reduction.InterleavingIsAtomic: does not allow webhooks between a claim and its save, because a save overwrites the alerts but not the team and style such a webhook wrote.
- Repeats.NotificationsAreSentOnce: requires that Slack refuses nothing, because after a refusal the channels already posted to are edited.
- Login, sessions, API keys, the dashboard, alert retention, migrations, the rule cache, YAML rules and the charts.
