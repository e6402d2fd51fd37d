# Dittofeed core, modelled in Dafny

This project models the core of Dittofeed, a customer-engagement platform. Dittofeed computes **segments** (sets of users) and **user properties** (per-user traits) from tracked events. It hands changed assignments to **journeys** (per-user workflows that send messages) and to **integrations**. Journeys send emails and mobile pushes through activity functions that decide, check by check, whether a message goes out and what is recorded about it. The dashboard offers a filter builder for the deliveries table, an editor for secrets, and the default graph of a new journey.

The model is organised one module per source file:

| module | source file |
|---|---|
| `Segments`, `KeyedSegmentProperties` | `packages/backend-lib/src/segments.ts` |
| `ComputeProperties`, `DispatchQuery` | `packages/backend-lib/src/computedProperties/computeProperties.ts` |
| `Activities` | `packages/backend-lib/src/journeys/userWorkflow/activities.ts` |
| `UserProperties` | `packages/backend-lib/src/userProperties.ts` |
| `DeliveriesFilter` | `packages/dashboard/src/components/deliveries/deliveriesFilter.tsx` |
| `SecretEditor` | `packages/dashboard/src/components/secretEditor.tsx` |
| `JourneyDefaults` | `packages/dashboard/src/components/journeys/defaults.ts` |

Two modules are shared:
- `Wrappers` holds `Option` and `Result`.
- `Json` holds the JavaScript values the core inspects: strict equality, truthiness, and `Number()` coercion as a partial parse.

Code that works step by step is modelled as methods with loops, each proved against a specification function. This covers the segment filter and counter, the subscription-map reducers, the listing and combination of user properties, and `buildNodesIndex`. State that the source updates in place is modelled as classes:
- the journey-run ledger;
- the user-property assignment table;
- the deliveries filter state;
- the secret editor state.

SQL statements (ClickHouse and PostgreSQL) are modelled through what they compute over tables given as sequences: argMax grouping, the LEFT JOIN with its defaults, the `arrayJoin` fan-out, and the `ON CONFLICT` upsert. Collaborators the core calls but does not define become function parameters:
- the jsonpath query;
- `uuidv5`;
- `getSubscribedSegments`;
- schema validation;
- `parseUserProperty`;
- the channel sender.

In these places the code behaves differently from what a reader might expect, and the model follows the code:
- The period bucket key reaches `mapValues` as a string, so `period !== 0` (computeProperties.ts:388) always holds. Bucket 0 therefore gets a lower bound of 0 instead of none. `LowerBound` returns `Some(key)` for every key, and `ScanWindow` proves that for non-negative times this selects the same events as having no bound.
- `computeAssignments` starts the statements for the Trait properties that precede the first unhandled definition before it throws. `computeState` throws before issuing anything.
- In the dispatch query, an assignment with no processed row meets the LEFT JOIN defaults: `''` for the user property value, `false` for the segment value, and `''` for the workspace.
- `defaults.ts` refers to `AdditionalJourneyNodeType.UiEntryNode`. The declaration in `packages/dashboard/src/lib/types.ts:305` is `EntryUiNode = "EntryUiNode"`, and the model uses that value.

## Model

| member | source | states |
|---|---|---|
| Json.StrictEqualsIsScalarEquality | packages/backend-lib/src/segments.ts:657-659 | `===` holds exactly for equal scalars; an array or object never equals anything by `===` |
| Json.ParseNumber | packages/backend-lib/src/segments.ts:690-696 | `Number()` of a string: the empty string is 0; a run of digits, optionally after one `+` or `-`, is its decimal value with that sign; every other string is NaN |
| Json.ParseNumberIgnoresLeadingZeros | packages/backend-lib/src/segments.ts:690-696 | zero padding, with or without a sign, does not change the number (`"007"` and `"+07"` are 7) |
| Json.ParseNumberRoundTrip | packages/backend-lib/src/segments.ts:690-696 | `Number()` of an integer's decimal string, with a "-" when negative, is that integer |
| Json.ToNumber | packages/backend-lib/src/segments.ts:690-696 | `Number()` of a value: a number is itself; undefined and objects are NaN |
| Segments.SegmentHasBroadcast | packages/backend-lib/src/segments.ts:413-433 | true iff the entry node or some node is a Broadcast node or a Performed node on the SegmentBroadcast event |
| Segments.FindNode | packages/backend-lib/src/segments.ts:560 | `find` by id: None iff no node has the id; otherwise the earliest node carrying it |
| Segments.GetSegmentNode | packages/backend-lib/src/segments.ts:553-561 | the entry node when its id matches, otherwise the first node with that id; any node returned carries the id |
| Segments.LastRowValue | packages/backend-lib/src/segments.ts:130-133 | the value the last row for an id leaves in `assignmentMap`; None iff no row has the id |
| Segments.LatestValueMap | packages/backend-lib/src/segments.ts:130-133 | the map's keys are exactly the ids with a row, each holding its last row's value |
| Segments.SegmentAssignmentsByName | packages/backend-lib/src/segments.ts:135-142 | the keys are exactly the segment names; each name holds the latest value of the last segment with that name, or null when that segment has no row |
| Segments.FilterEvent | packages/backend-lib/src/segments.ts:618-722 | the loop over property conditions returns exactly the event-name, message-id, key and condition verdict `EventMatches` |
| Segments.CountMatching | packages/backend-lib/src/segments.ts:731-746 | the number of accepted events never exceeds the number of events |
| Segments.CalculateKeyedSegment | packages/backend-lib/src/segments.ts:724-773 | the counting loop and threshold give `KeyedSegmentValue`: the count compared with `times` (default 1) by the operator (default `>=`) |
| KeyedSegmentProperties.CountAppend | packages/backend-lib/src/segments.ts:731-746 | the count over two event lists is the sum of the counts |
| KeyedSegmentProperties.RejectedEventsCountZero | packages/backend-lib/src/segments.ts:732-745 | events the filter rejects count 0 |
| KeyedSegmentProperties.RejectedEventsIgnored | packages/backend-lib/src/segments.ts:732-745 | inserting rejected events anywhere leaves the count unchanged |
| KeyedSegmentProperties.GreaterOrEqualIsMonotone | packages/backend-lib/src/segments.ts:754-762 | with the `>=` operator, a segment that holds keeps holding when events are appended |
| KeyedSegmentProperties.DefaultThresholdIsAtLeastOnce | packages/backend-lib/src/segments.ts:754-762 | with neither `times` nor operator, the segment holds iff some event passes the filter |
| KeyedSegmentProperties.OtherKeysAndNamesAreIsolated | packages/backend-lib/src/segments.ts:629-671 | events with another name, or whose key does not resolve to the key value, never change the verdict |
| KeyedSegmentProperties.DifferentKeyValueNotCounted | packages/backend-lib/src/segments.ts:652-671 | an event whose key resolves to a different string is rejected |
| KeyedSegmentProperties.MissingPropertyRejects | packages/backend-lib/src/segments.ts:672-720 | an event lacking a constrained property is rejected under every operator, unless an Equals condition expects undefined |
| KeyedSegmentProperties.UnsupportedOperatorCountsNothing | packages/backend-lib/src/segments.ts:699-706 | a definition with an unsupported operator counts no event |
| KeyedSegmentProperties.AsWrittenCountsNothing | packages/backend-lib/src/segments.ts:653-659 | with `jsonValue` returning the match list, no event ever passes the key check |
| KeyedSegmentProperties.AsWrittenVerdictIgnoresEvents | packages/backend-lib/src/segments.ts:653-659 | as written, the verdict is the threshold applied to a count of 0, whatever the events |
| KeyedSegmentProperties.CancellationScenario | packages/backend-lib/src/segments.ts:724-773 | two updates of appointment A, the second a cancellation: the segment holds for key A and not for key B |
| KeyedSegmentProperties.CancellationScenarioAsWritten | packages/backend-lib/src/segments.ts:653-659 | the same events with `jsonValue` as written: the segment does not hold for key A |
| ComputeProperties.AsWrittenIgnoresTraitPath | packages/backend-lib/src/computedProperties/computeProperties.ts:318-325 | as written, a Trait sub-query for `firstName` extracts `email` |
| ComputeProperties.TraitSubQueryDistinguishesPaths | packages/backend-lib/src/computedProperties/computeProperties.ts:313-326 | the corrected sub-query extracts the trait's own path, so traits on different paths get different sub-queries |
| ComputeProperties.FirstUnhandled | packages/backend-lib/src/computedProperties/computeProperties.ts:328-331 | None iff every definition is a Trait; otherwise the type of a non-Trait definition |
| ComputeProperties.FirstUnhandledAt | packages/backend-lib/src/computedProperties/computeProperties.ts:310-334 | the error names the first non-Trait definition in order |
| ComputeProperties.SubQueries | packages/backend-lib/src/computedProperties/computeProperties.ts:310-334 | one sub-query per user property, in order, each carrying that property's id and state id; the extracted path is `email` as written, or the definition's path when corrected |
| ComputeProperties.PeriodMaxToSpec | packages/backend-lib/src/computedProperties/computeProperties.ts:355-371 | None iff no period row names the property; otherwise the `maxTo` of the last row for it |
| ComputeProperties.InBucket | packages/backend-lib/src/computedProperties/computeProperties.ts:373-382 | the sub-queries of one bucket are exactly those whose period key is that bucket |
| ComputeProperties.BucketsKeys | packages/backend-lib/src/computedProperties/computeProperties.ts:373-382 | the buckets are exactly the period keys of the sub-queries |
| ComputeProperties.BucketsContents | packages/backend-lib/src/computedProperties/computeProperties.ts:373-382 | each bucket holds exactly the sub-queries with its key, in input order |
| ComputeProperties.SubQueryInItsBucket | packages/backend-lib/src/computedProperties/computeProperties.ts:373-382 | every sub-query lands in its own bucket and in no other |
| ComputeProperties.ScanWindow | packages/backend-lib/src/computedProperties/computeProperties.ts:384-433 | a scan reads events with key <= processing time < now; for bucket 0 this is the same as no lower bound |
| ComputeProperties.ComputeState | packages/backend-lib/src/computedProperties/computeProperties.ts:291-450 | the loop yields `ComputeStatePlan`, for the as-written and the corrected sub-query: an error for the first unhandled definition, otherwise one scan per bucket |
| ComputeProperties.ComputeStateScans | packages/backend-lib/src/computedProperties/computeProperties.ts:335-390 | no user properties means no scans; every sub-query is evaluated by the scan of its own bucket, whose lower bound is the bucket key |
| ComputeProperties.PlanExtractedPaths | packages/backend-lib/src/computedProperties/computeProperties.ts:313-326 | as written, every sub-query of every scan extracts `email`; corrected, each extracts the Trait path of its own property |
| ComputeProperties.ComputeAssignments | packages/backend-lib/src/computedProperties/computeProperties.ts:452-526 | the error is the first unhandled definition; the statements issued are those for the Trait properties before it, each keyed by its property and state id |
| ComputeProperties.StateIdsAgree | packages/backend-lib/src/computedProperties/computeProperties.ts:314-317 | for either extraction, the (property, state id) pair of each assignment statement is carried by a sub-query of some scan |
| ComputeProperties.UnhandledDefinitionRejectedByBoth | packages/backend-lib/src/computedProperties/computeProperties.ts:328-331 | computeState fails exactly when computeAssignments reports an unhandled definition, with the same type |
| ComputeProperties.RegisterSpec | packages/backend-lib/src/computedProperties/computeProperties.ts:557-561 | registering adds the value to the set of every listed key, creating missing sets, and changes nothing else |
| ComputeProperties.RegisterEach | packages/backend-lib/src/computedProperties/computeProperties.ts:557-561 | the `forEach` over a journey's segments performs `Register` |
| ComputeProperties.JourneyMapSpec | packages/backend-lib/src/computedProperties/computeProperties.ts:553-565 | a segment is a key iff some journey subscribes to it, and its set holds exactly those journeys' ids |
| ComputeProperties.BuildJourneyMap | packages/backend-lib/src/computedProperties/computeProperties.ts:553-565 | the reduce yields `JourneyMap` |
| ComputeProperties.Resolve | packages/backend-lib/src/computedProperties/computeProperties.ts:572-581 | the non-empty id of the first resource with the name; None iff no resource has the name or the first one has an empty id |
| ComputeProperties.ResolvedIdsSpec | packages/backend-lib/src/computedProperties/computeProperties.ts:570-586 | the ids registered for an integration are exactly the resolved ids of its subscribed names |
| ComputeProperties.IntegrationMapEntry | packages/backend-lib/src/computedProperties/computeProperties.ts:567-607 | an id maps to an integration name iff that integration subscribes to a name resolving to the id |
| ComputeProperties.IntegrationSubscription | packages/backend-lib/src/computedProperties/computeProperties.ts:567-607 | the same stated through `Resolve`, for user properties and for segments |
| ComputeProperties.RegisterResolved | packages/backend-lib/src/computedProperties/computeProperties.ts:570-586 | the `forEach` over an integration's names registers it under exactly the resolved ids |
| ComputeProperties.BuildIntegrationMap | packages/backend-lib/src/computedProperties/computeProperties.ts:567-607 | the reduce yields `IntegrationMap` |
| DispatchQuery.Latest | packages/backend-lib/src/computedProperties/computeProperties.ts:695-731 | argMax by assignment time per group: None iff the group has no row; otherwise a row of the group with the greatest time |
| DispatchQuery.LatestProcessed | packages/backend-lib/src/computedProperties/computeProperties.ts:733-749 | argMax by processing time per property, user and subscriber, with the same characterisation |
| DispatchQuery.FanOutMembers | packages/backend-lib/src/computedProperties/computeProperties.ts:703-724 | a subscriber is in the fan-out iff it is `pg`, a journey subscribed to the segment, or an integration subscribed to the property |
| DispatchQuery.DispatchedRows | packages/backend-lib/src/computedProperties/computeProperties.ts:682-775 | every selected row is the latest value of its group, for a subscriber in its fan-out, passing the WHERE clause |
| DispatchQuery.JourneyOnlySeesTrueSegments | packages/backend-lib/src/computedProperties/computeProperties.ts:756-774 | journeys receive only segment assignments whose value is true |
| DispatchQuery.SubscribersReceiveOnlySubscribedChanges | packages/backend-lib/src/computedProperties/computeProperties.ts:553-724 | end to end: a journey receives only segments it subscribes to, and an integration only properties whose names it subscribes to |
| DispatchQuery.NothingWhenUpToDate | packages/backend-lib/src/computedProperties/computeProperties.ts:756-759 | when every subscriber's processed values equal the latest ones, nothing is selected |
| DispatchQuery.FirstAssignmentNeedsValue | packages/backend-lib/src/computedProperties/computeProperties.ts:756-774 | with no processed row, a row is selected iff it is a non-empty user property or a true segment |
| DispatchQuery.SegmentExitReachesNonJourneys | packages/backend-lib/src/computedProperties/computeProperties.ts:766-773 | a segment that turned false after being processed reaches every subscriber except journeys |
| DispatchQuery.RecordingSuppresses | packages/backend-lib/src/computedProperties/computeProperties.ts:733-759 | recording a selected row as processed removes it from the next selection and keeps every other target |
| Activities.SubscriptionGate | packages/backend-lib/src/journeys/userWorkflow/activities.ts:168-190 | no group id means no gate; a missing group is a bad configuration; the user is skipped iff the first assignment is false, or absent in an opt-in group; the gate never reports a sent message |
| Activities.GateByGroupType | packages/backend-lib/src/journeys/userWorkflow/activities.ts:175-189 | an opt-out group without an assignment lets the message through; an opt-in group lets it through iff the first assignment is true |
| Activities.SendWithTracking | packages/backend-lib/src/journeys/userWorkflow/activities.ts:66-226 | success only after every check passes: template found, journey found and running, gate open, channel present, identifier truthy; then the result is the configuration's own result or the channel sender's |
| Activities.SendMobilePushWithPayload | packages/backend-lib/src/journeys/userWorkflow/activities.ts:228-495 | success iff the result is MessageSent and delivered; a throw comes only from template rendering |
| Activities.SendMobilePush | packages/backend-lib/src/journeys/userWorkflow/activities.ts:497-503 | returns the payload's outcome and submits exactly its track record, if any |
| Activities.SendEmailWithPayload | packages/backend-lib/src/journeys/userWorkflow/activities.ts:506-853 | sent iff the event is MessageSent; MessageFailure iff the Sendgrid send failed |
| Activities.SendEmailFollowsCheckOrder | packages/backend-lib/src/journeys/userWorkflow/activities.ts:506-853 | the result is the record of the first failing check, in source order, or sent |
| Activities.SendEmailSendsIffAllChecksPass | packages/backend-lib/src/journeys/userWorkflow/activities.ts:506-853 | an email is sent iff no check fails |
| Activities.FirstFailurePasses | packages/backend-lib/src/journeys/userWorkflow/activities.ts:506-853 | first-failure evaluation succeeds iff no check in the list fails |
| Activities.GateAppliedIdentically | packages/backend-lib/src/journeys/userWorkflow/activities.ts:168-190 | the generic sender, mobile push and email reject a user at the subscription gate with the same record |
| Activities.NotRunningCheckedAfterGate | packages/backend-lib/src/journeys/userWorkflow/activities.ts:168-194 | for the generic sender, email and mobile push alike: a journey that is not running is skipped when the gate is open, and the gate's record wins when it is closed |
| Activities.EmailProviderOutcomes | packages/backend-lib/src/journeys/userWorkflow/activities.ts:765-853 | Sendgrid failure gives MessageFailure, an unknown provider a bad configuration, and Sendgrid success a sent message |
| Activities.RunLedger.IsRunnable | packages/backend-lib/src/journeys/userWorkflow/activities.ts:866-881 | runnable iff the ledger holds no ExitNode event for the journey and user |
| Activities.RunLedger.OnNodeProcessed | packages/backend-lib/src/journeys/userWorkflow/activities.ts:883-912 | the event key is inserted once (repeating is a no-op), and a user has exited iff they had already exited or this node is the exit node |
| Activities.ProcessTwice | packages/backend-lib/src/journeys/userWorkflow/activities.ts:883-912 | processing a node twice equals processing it once; the user stays runnable iff they had not exited and the node is not the exit |
| UserProperties.EnrichUserProperty | packages/backend-lib/src/userProperties.ts:16-30 | the row with its validated definition, or the validation errors |
| UserProperties.ToUserPropertyResource | packages/backend-lib/src/userProperties.ts:32-43 | fails iff validation fails, with the same errors; otherwise exactly workspace, name, id and validated definition |
| UserProperties.ValidProperties | packages/backend-lib/src/userProperties.ts:54-67 | the listing never has more entries than there are rows |
| UserProperties.ValidPropertiesOfRow | packages/backend-lib/src/userProperties.ts:57-64 | one row lists its enriched property when its definition validates, and nothing otherwise |
| UserProperties.ValidPropertiesAppend | packages/backend-lib/src/userProperties.ts:54-67 | listing distributes over concatenation, so valid rows are listed in input order, each once |
| UserProperties.ValidPropertiesSpec | packages/backend-lib/src/userProperties.ts:54-67 | a property is listed iff some row enriches to it |
| UserProperties.FindAllUserProperties | packages/backend-lib/src/userProperties.ts:45-68 | the loop keeps the enriched rows whose definitions validate, in order |
| UserProperties.AssignmentAsString | packages/backend-lib/src/userProperties.ts:72-81 | the assignment when it is a string; null when it is missing or of another type |
| UserProperties.SelectProperties | packages/backend-lib/src/userProperties.ts:128-144 | a row is selected iff it is in the workspace and, when a non-empty name filter is given, its name is listed |
| UserProperties.EmptyFilterSelectsWorkspace | packages/backend-lib/src/userProperties.ts:131-135 | an absent or empty name filter selects the whole workspace |
| UserProperties.CombineLastWins | packages/backend-lib/src/userProperties.ts:146-172 | the combined record's keys are exactly the written names, each holding the last value written under it |
| UserProperties.ParsedValuesSpec | packages/backend-lib/src/userProperties.ts:163-169 | a value is written iff it parses from one of the property's assignments |
| UserProperties.PropertyEntriesSpec | packages/backend-lib/src/userProperties.ts:148-169 | a property with an invalid definition writes nothing; a valid one writes its parsed assignments under its name |
| UserProperties.EntriesSpec | packages/backend-lib/src/userProperties.ts:148-170 | the writes are exactly those of the selected properties |
| UserProperties.CombinedKeyHasSource | packages/backend-lib/src/userProperties.ts:148-170 | every key comes from a selected property with a valid definition and an assignment that parses |
| UserProperties.SourceGivesCombinedKey | packages/backend-lib/src/userProperties.ts:148-170 | every such property's name is a key |
| UserProperties.CombinedAssignmentKeys | packages/backend-lib/src/userProperties.ts:119-173 | a name is a key iff a selected property of that name has a valid definition and an assignment that parses |
| UserProperties.WriteParsedAssignments | packages/backend-lib/src/userProperties.ts:163-169 | the inner loop writes exactly the parsed values, in order |
| UserProperties.FindAllUserPropertyAssignments | packages/backend-lib/src/userProperties.ts:119-173 | the nested loops yield `CombinedAssignments` |
| UserProperties.UpsertedSpec | packages/backend-lib/src/userProperties.ts:101-107 | without repeated keys, each input key holds its input value afterwards and every other row is unchanged |
| UserProperties.AssignmentTable.ExecuteUpsert | packages/backend-lib/src/userProperties.ts:101-109 | the statement is atomic: a repeated key or a foreign-key violation fails it and changes nothing; otherwise every row is upserted |
| UserProperties.AssignmentTable.UpsertBulk | packages/backend-lib/src/userProperties.ts:83-117 | an empty input does nothing; a foreign-key violation (P2003) is swallowed with the table unchanged; other errors are rethrown |
| DeliveriesFilter.MapSet | packages/dashboard/src/components/deliveries/deliveriesFilter.tsx:229 | `Map.set`: the id maps to the new label, every other id keeps its label, ids stay distinct, and existing entries keep their positions |
| DeliveriesFilter.Commands | packages/dashboard/src/components/deliveries/deliveriesFilter.tsx:170-205 | while picking a key the commands are exactly Template, To, From and Status; nothing while typing a value; the children while picking items |
| DeliveriesFilter.ChannelNeverOffered | packages/dashboard/src/components/deliveries/deliveriesFilter.tsx:172-195 | `channel` is handled when chosen but never offered as a key |
| DeliveriesFilter.TemplateChildren | packages/dashboard/src/components/deliveries/deliveriesFilter.tsx:238-249 | one item per loaded template, labelled by name with the template id |
| DeliveriesFilter.StageFor | packages/dashboard/src/components/deliveries/deliveriesFilter.tsx:236-364 | `to` and `from` lead to typing a value, starting empty; template, status and channel lead to picking their items, with status offering the ten items as written |
| DeliveriesFilter.StatusChildren | packages/dashboard/src/components/deliveries/deliveriesFilter.tsx:280-331 | the corrected status items have no repeated label or id |
| DeliveriesFilter.StatusChildrenCoverEvents | packages/dashboard/src/components/deliveries/deliveriesFilter.tsx:280-331 | every status event type is offered |
| DeliveriesFilter.StatusChildrenDropsDuplicate | packages/dashboard/src/components/deliveries/deliveriesFilter.tsx:311-315 | the corrected list is the written one without its second "Email Bounced" |
| DeliveriesFilter.DuplicateBouncedItemAsWritten | packages/dashboard/src/components/deliveries/deliveriesFilter.tsx:306-315 | as written, the second "Email Bounced" carries the EmailDelivered id; picking "Email Delivered" and then it leaves one entry labelled bounced that filters on delivered |
| DeliveriesFilter.ChipLabelOfTwoItems | packages/dashboard/src/components/deliveries/deliveriesFilter.tsx:130-146 | a chip shows the key, " = ", and the item labels joined with " OR " |
| DeliveriesFilter.DeliveriesFilterState.constructor | packages/dashboard/src/components/deliveries/deliveriesFilter.tsx:114-120 | initially closed, with no anchor, empty input, the key stage and no filters |
| DeliveriesFilter.DeliveriesFilterState.HandleCommandSelect | packages/dashboard/src/components/deliveries/deliveriesFilter.tsx:207-374 | an item outside an item stage changes nothing; inside one it clears the input, closes, and adds the item to the key's filter by `Map.set` on its existing entries (so the chip lists items in insertion order), leaving other keys alone; a key command changes only the stage; the state stays valid, so no value filter ever sits under an item key |
| DeliveriesFilter.DeliveriesFilterState.OnValueChange | packages/dashboard/src/components/deliveries/deliveriesFilter.tsx:399-407 | typing edits the stage value only in the value stage |
| DeliveriesFilter.DeliveriesFilterState.OnValueKeyDownAsWritten | packages/dashboard/src/components/deliveries/deliveriesFilter.tsx:408-430 | Enter stores the search-box text under the stage's key, then resets to the key stage, closes and clears the input |
| DeliveriesFilter.DeliveriesFilterState.OnValueKeyDown | packages/dashboard/src/components/deliveries/deliveriesFilter.tsx:408-430 | Enter stores the typed stage value, then resets and closes; other keys change nothing |
| DeliveriesFilter.DeliveriesFilterState.OnInputChange | packages/dashboard/src/components/deliveries/deliveriesFilter.tsx:447-451 | the search text is replaced and nothing else changes |
| DeliveriesFilter.DeliveriesFilterState.HandleClick | packages/dashboard/src/components/deliveries/deliveriesFilter.tsx:376-381 | anchors at the button and opens, leaving stage and filters alone |
| DeliveriesFilter.DeliveriesFilterState.HandleClose | packages/dashboard/src/components/deliveries/deliveriesFilter.tsx:383-389 | closes, unanchors and returns to the key stage; the filters and the input are untouched |
| DeliveriesFilter.DeliveriesFilterState.DeleteChip | packages/dashboard/src/components/deliveries/deliveriesFilter.tsx:147-151 | removes only that key's filter |
| DeliveriesFilter.TypedAddressAsWritten | packages/dashboard/src/components/deliveries/deliveriesFilter.tsx:414-429 | pick `to`, type an address, press Enter: as written the `to` filter holds the empty search text |
| DeliveriesFilter.TypedAddress | packages/dashboard/src/components/deliveries/deliveriesFilter.tsx:399-429 | the same steps, storing the typed value, keep the address |
| SecretEditor.InitialState | packages/dashboard/src/components/secretEditor.tsx:65-75 | hidden, no request yet, and Saved iff the secret exists; otherwise an empty UnSaved value |
| SecretEditor.DisableSavedEditing | packages/dashboard/src/components/secretEditor.tsx:81-90 | Saved, with visibility and request status unchanged |
| SecretEditor.DisableSavedEditingIdempotent | packages/dashboard/src/components/secretEditor.tsx:81-90 | cancelling twice is cancelling once, and a Saved state is left as it is |
| SecretEditor.RequestFor | packages/dashboard/src/components/secretEditor.tsx:147-287 | nothing is sent without a loaded workspace; delete sends the key set to ""; a save sends the typed value, and only a first save includes `type` |
| SecretEditor.OnlyFirstSaveSendsType | packages/dashboard/src/components/secretEditor.tsx:170-176 | `type` is in the payload iff the secret was unsaved |
| SecretEditor.SecretEditorState.constructor | packages/dashboard/src/components/secretEditor.tsx:144-145 | the editor starts in `initialState(saved)` |
| SecretEditor.SecretEditorState.ToggleVisibility | packages/dashboard/src/components/secretEditor.tsx:77-79 | flips whether the value is shown, and nothing else |
| SecretEditor.SecretEditorState.SetRequest | packages/dashboard/src/components/secretEditor.tsx:126-130 | changes only the request status |
| SecretEditor.SecretEditorState.Update | packages/dashboard/src/components/secretEditor.tsx:187-193 | Saved becomes SavedEditing with an empty value |
| SecretEditor.SecretEditorState.Cancel | packages/dashboard/src/components/secretEditor.tsx:258 | applies `disableSavedEditing` |
| SecretEditor.SecretEditorState.SaveSucceeded | packages/dashboard/src/components/secretEditor.tsx:215-220 | a successful save ends Saved |
| SecretEditor.SecretEditorState.DeleteSucceeded | packages/dashboard/src/components/secretEditor.tsx:158-164 | a successful delete ends UnSaved with an empty value |
| SecretEditor.SecretEditorState.OnSavedEditingChange | packages/dashboard/src/components/secretEditor.tsx:240-247 | typing edits the value only in SavedEditing |
| SecretEditor.SecretEditorState.OnUnSavedChange | packages/dashboard/src/components/secretEditor.tsx:297-304 | typing edits the value only in UnSaved |
| SecretEditor.SecretEditorState.PressVisibilityButtonAsWritten | packages/dashboard/src/components/secretEditor.tsx:112-116 | one press runs the handler on mouse-down and on click, leaving the state as it was |
| SecretEditor.SecretEditorState.PressVisibilityButton | packages/dashboard/src/components/secretEditor.tsx:77-79 | one press toggling once flips visibility |
| SecretEditor.RevealAsWritten | packages/dashboard/src/components/secretEditor.tsx:112-116 | type a first value and press the button: as written the value stays hidden |
| SecretEditor.Reveal | packages/dashboard/src/components/secretEditor.tsx:77-79 | with one toggle per press, the same steps reveal the value |
| SecretEditor.ReplaceSavedSecret | packages/dashboard/src/components/secretEditor.tsx:187-236 | Update, type, Save: the request carries only the typed value under the key, and the editor ends Saved |
| JourneyDefaults.DefaultEdges | packages/dashboard/src/components/journeys/defaults.ts:8-15 | one workflow edge from the UI entry node to the exit node, with id "source=>target" |
| JourneyDefaults.BuildNodesIndex | packages/dashboard/src/components/journeys/defaults.ts:46-53 | the keys are exactly the node ids; each maps to the position of its last occurrence; with distinct ids each node maps to its own position; empty input gives an empty index |
| JourneyDefaults.DefaultEdgesConnectDefaultNodes | packages/dashboard/src/components/journeys/defaults.ts:8-44 | both ends of the default edge are default nodes, at positions 0 and 1 |

## Left out

- I/O of every kind is left out: Prisma and ClickHouse calls, table creation and deletion, temporary tables, and logging. Tables are sequences or maps given as inputs.
- Concurrency is not modelled: every `Promise.all` is sequential.
- Opaque collaborators are uninterpreted function parameters: `uuidv5`, `getChCompatibleUuid`, the jsonpath library, `getSubscribedSegments`, schema validation and `parseUserProperty`.
- Rendering and delivery are abstract outcomes given as inputs: Liquid rendering, HTML escaping, Sendgrid, FCM, `submitTrack` and `trackInternalEvents`.
- The period/watermark write step is left out, because it does not exist in the code: both statements end with a "fixme write step" comment.
- The SQL text is not modelled: query strings, parameter binding and the six parallel key/value arrays of processAssignments. The model uses the maps those arrays encode.
- Segment definitions inside `computeState` are not modelled; that loop has an empty body.
- Json.ParseNumber: JavaScript trims whitespace and accepts decimals, exponents, hexadecimal and "Infinity". The model parses signed decimal integers only, so for example `Number("   ")` (0 in JavaScript) and `Number("Infinity")` are NaN here.
- Json.ToNumber: `Number()` is modelled on integers only. Decimals, exponents, hexadecimal and surrounding whitespace are not parsed, so such strings count as NaN.
- DispatchQuery.Latest: argMax ties between rows with the same time are resolved in favour of the later row in the log. ClickHouse leaves this choice unspecified.
- Segments.NodeIsBroadcast: the string value of `InternalEventType.SegmentBroadcast` is not part of this model. The constant `SegmentBroadcastEvent` stands for it.
- The string values of `InternalEventType` and `ChannelType` used as item ids in the deliveries filter are not part of this model. Item ids are tags.
- UserProperties.AssignmentTable.UpsertBulk:
  - the values of each row are taken as given;
  - the interpolation of `userId` and `value` inside quoted SQL literals (userProperties.ts:97) and its effect on parameter binding are not modelled;
  - a foreign-key violation is assumed to surface as P2003, as the handler expects.
- Activities.SendMobilePushWithPayload: an exception thrown by template rendering is not caught in the code. It is modelled as a `Threw` outcome rather than as a tracked failure.
- `sendEmail` (activities.ts:855-864) is not modelled separately. It forwards the result of `sendEmailWithPayload` and submits its record, as `SendMobilePush` does for push.
- Dashboard rendering is left out: layout, icons, focus handling, popover transitions, and the order in which chips are listed.
- DeliveriesFilter.DeliveriesFilterState.HandleCommandSelect: the anchor is a name rather than a DOM element. The `console.error` branch for a value filter under an item key is proved unreachable from the initial state, so it is not modelled further.
- SecretEditor.SecretEditorState.SaveSucceeded and DeleteSucceeded: notices and the request handler's own status transitions are left out. The request status is changed only through `SetRequest`.
- `defaultNodes` is modelled by its node ids only. Its layout is not modelled.

## Findings

Each row has an as-written member and a corrected member. Operations that use the faulty code follow it as written. The `computeState` plan is stated for both extractions, through the `Extraction` parameter. The deliveries filter's status stage offers the written ten-item list. The corrected definitions are proved beside them.

| source | as written | input that shows it | evidently intended | confidence | as-written member | corrected member |
|---|---|---|---|---|---|---|
| packages/backend-lib/src/segments.ts:653-659 | `jsonValue` returns the jsonpath match list, which is compared with `===` against the key string | events `APPOINTMENT_UPDATE {appointmentId: "A", operation: "started"}` and `{appointmentId: "A", operation: "CANCELLED"}`, key A, condition operation = CANCELLED: the segment does not hold | compare the first match with the key value | not executed | KeyedSegmentProperties.CancellationScenarioAsWritten | KeyedSegmentProperties.CancellationScenario |
| packages/backend-lib/src/computedProperties/computeProperties.ts:319 | the Trait sub-query always extracts `email` | a Trait property on path `firstName` extracts `email` | extract the trait's own path | not executed | ComputeProperties.AsWrittenIgnoresTraitPath | ComputeProperties.TraitSubQueryDistinguishesPaths |
| packages/dashboard/src/components/deliveries/deliveriesFilter.tsx:414-429 | Enter stores `state.inputValue`, the autocomplete's search text, not the typed stage value | pick To, type `ada@example.com`, press Enter: the To filter holds "" | store the value typed in the field | not executed | DeliveriesFilter.TypedAddressAsWritten | DeliveriesFilter.TypedAddress |
| packages/dashboard/src/components/deliveries/deliveriesFilter.tsx:311-315 | a second "Email Bounced" item carries the EmailDelivered id | pick Status, then "Email Delivered", then the second "Email Bounced": one chip entry labelled "Email Bounced" that filters on delivered | one item per event type | not executed | DeliveriesFilter.DuplicateBouncedItemAsWritten | DeliveriesFilter.StatusChildren |
| packages/dashboard/src/components/secretEditor.tsx:114-115 | the visibility handler is bound to both `onClick` and `onMouseDown` | in UnSaved, type `hunter2` and click the eye icon: the value stays hidden | toggle once per click | not executed | SecretEditor.RevealAsWritten | SecretEditor.Reveal |
