/** The dispatch query of `processAssignments`
    (packages/backend-lib/src/computedProperties/computeProperties.ts): the
    assignment and processed tables as append-only logs, the latest value
    per group as an argMax by time, the fan-out of every group to its
    subscribers, and the predicate deciding which (group, subscriber)
    pairs are selected for processing. */
module DispatchQuery {
  import opened Wrappers
  import CP = ComputeProperties

  datatype PropertyKind = SegmentKind | UserPropertyKind

  /** A row of `computed_property_assignments_v2`. */
  datatype AssignmentRow = AssignmentRow(
    workspaceId: string,
    kind: PropertyKind,
    computedPropertyId: string,
    userId: string,
    segmentValue: bool,
    userPropertyValue: string,
    assignedAt: int)

  /** The GROUP BY key of the assignment sub-select. */
  datatype GroupKey = GroupKey(workspaceId: string, kind: PropertyKind, computedPropertyId: string, userId: string)

  function KeyOf(row: AssignmentRow): GroupKey
  {
    GroupKey(row.workspaceId, row.kind, row.computedPropertyId, row.userId)
  }

  /** A `(processed_for_type, processed_for)` target: `('pg','pg')`,
      `('journey', journeyId)` or `('integration', integrationName)`. */
  datatype Subscriber = Subscriber(forType: string, forName: string)

  const PgTarget: Subscriber := Subscriber("pg", "pg")

  /** A row of `processed_computed_properties_v2`. */
  datatype ProcessedRow = ProcessedRow(
    workspaceId: string,
    computedPropertyId: string,
    userId: string,
    subscriber: Subscriber,
    segmentValue: bool,
    userPropertyValue: string,
    processedAt: int)

  /** `argMax(..., assigned_at)` over the rows of a group: a row of the
      group with the largest `assigned_at`. Among rows with equal times the
      later one in the log is taken. */
  function Latest(log: seq<AssignmentRow>, key: GroupKey): (r: Option<AssignmentRow>)
    ensures r.None? <==> forall i :: 0 <= i < |log| ==> KeyOf(log[i]) != key
    ensures r.Some? ==> r.value in log && KeyOf(r.value) == key
    ensures r.Some? ==> forall i :: 0 <= i < |log| && KeyOf(log[i]) == key ==> log[i].assignedAt <= r.value.assignedAt
  {
    if log == [] then None
    else
      var init := log[..|log| - 1];
      var last := log[|log| - 1];
      var prev := Latest(init, key);
      assert forall i :: 0 <= i < |init| ==> init[i] == log[i];
      if KeyOf(last) == key && (prev.None? || prev.value.assignedAt <= last.assignedAt) then Some(last)
      else prev
  }

  /** `argMax(..., processed_at)` over the processed rows of a property,
      user and subscriber. */
  function LatestProcessed(log: seq<ProcessedRow>, workspaceId: string, computedPropertyId: string,
                           userId: string, subscriber: Subscriber): (r: Option<ProcessedRow>)
    ensures r.None? <==> forall i :: 0 <= i < |log| ==> !ProcessedFor(log[i], workspaceId, computedPropertyId, userId, subscriber)
    ensures r.Some? ==> r.value in log && ProcessedFor(r.value, workspaceId, computedPropertyId, userId, subscriber)
    ensures r.Some? ==> forall i :: 0 <= i < |log| && ProcessedFor(log[i], workspaceId, computedPropertyId, userId, subscriber)
                                    ==> log[i].processedAt <= r.value.processedAt
  {
    if log == [] then None
    else
      var init := log[..|log| - 1];
      var last := log[|log| - 1];
      var prev := LatestProcessed(init, workspaceId, computedPropertyId, userId, subscriber);
      assert forall i :: 0 <= i < |init| ==> init[i] == log[i];
      if ProcessedFor(last, workspaceId, computedPropertyId, userId, subscriber)
         && (prev.None? || prev.value.processedAt <= last.processedAt)
      then Some(last)
      else prev
  }

  /** The LEFT JOIN condition. */
  predicate ProcessedFor(row: ProcessedRow, workspaceId: string, computedPropertyId: string,
                         userId: string, subscriber: Subscriber)
  {
    row.workspaceId == workspaceId && row.computedPropertyId == computedPropertyId
    && row.userId == userId && row.subscriber == subscriber
  }

  /** The three subscription maps, as `processAssignments` builds them. */
  datatype Subscriptions = Subscriptions(
    journeysBySegment: map<string, set<string>>,
    integrationsByUserProperty: map<string, set<string>>,
    integrationsBySegment: map<string, set<string>>)

  function Tagged(forType: string, m: map<string, set<string>>, id: string): set<Subscriber>
  {
    if id in m then set name | name in m[id] :: Subscriber(forType, name) else {}
  }

  /** The `arrayJoin(arrayConcat(...))` fan-out of a group: the pg target
      always; for a segment its journeys and its integrations; for a user
      property its integrations. */
  function FanOut(kind: PropertyKind, computedPropertyId: string, subs: Subscriptions): set<Subscriber>
  {
    {PgTarget}
    + (if kind == SegmentKind then Tagged("journey", subs.journeysBySegment, computedPropertyId) else {})
    + (if kind == UserPropertyKind then Tagged("integration", subs.integrationsByUserProperty, computedPropertyId) else {})
    + (if kind == SegmentKind then Tagged("integration", subs.integrationsBySegment, computedPropertyId) else {})
  }

  /** Who receives changes of a property: pg, and exactly the subscribers
      registered for it in the maps its kind consults. */
  lemma FanOutMembers(kind: PropertyKind, id: string, subs: Subscriptions, s: Subscriber)
    ensures s in FanOut(kind, id, subs) <==>
              || s == PgTarget
              || (kind == SegmentKind && s.forType == "journey"
                  && id in subs.journeysBySegment && s.forName in subs.journeysBySegment[id])
              || (kind == SegmentKind && s.forType == "integration"
                  && id in subs.integrationsBySegment && s.forName in subs.integrationsBySegment[id])
              || (kind == UserPropertyKind && s.forType == "integration"
                  && id in subs.integrationsByUserProperty && s.forName in subs.integrationsByUserProperty[id])
  {
  }

  /** The WHERE clause for one joined row. An unmatched LEFT JOIN leaves the
      processed columns at their defaults: '' for strings, false for
      booleans. */
  predicate ShouldDispatch(latest: AssignmentRow, subscriber: Subscriber, processed: Option<ProcessedRow>)
  {
    var pcpUserPropertyValue := if processed.Some? then processed.value.userPropertyValue else "";
    var pcpSegmentValue := if processed.Some? then processed.value.segmentValue else false;
    var pcpWorkspaceId := if processed.Some? then processed.value.workspaceId else "";
    && (latest.userPropertyValue != pcpUserPropertyValue || latest.segmentValue != pcpSegmentValue)
    && (|| (latest.kind == UserPropertyKind && latest.userPropertyValue != "\"\"" && latest.userPropertyValue != "")
        || (latest.kind == SegmentKind && latest.segmentValue)
        || (pcpWorkspaceId != "" && subscriber.forType != "journey"))
  }

  /** A row of the temporary table: the group, the subscriber and the
      latest values. */
  datatype Dispatched = Dispatched(key: GroupKey, subscriber: Subscriber, segmentValue: bool, userPropertyValue: string)

  function ProcessedForGroup(processed: seq<ProcessedRow>, key: GroupKey, s: Subscriber): Option<ProcessedRow>
  {
    LatestProcessed(processed, key.workspaceId, key.computedPropertyId, key.userId, s)
  }

  /** The rows the query selects for a workspace. */
  function Dispatch(log: seq<AssignmentRow>, processed: seq<ProcessedRow>, workspaceId: string, subs: Subscriptions)
    : set<Dispatched>
  {
    set row, s | row in log && row.workspaceId == workspaceId && s in FanOut(row.kind, row.computedPropertyId, subs)
                 && Latest(log, KeyOf(row)).Some?
                 && ShouldDispatch(Latest(log, KeyOf(row)).value, s, ProcessedForGroup(processed, KeyOf(row), s))
      :: Dispatched(KeyOf(row), s, Latest(log, KeyOf(row)).value.segmentValue,
                    Latest(log, KeyOf(row)).value.userPropertyValue)
  }

  /** A selected row carries the latest values of an assigned group of the
      workspace, for a subscriber of that group, and the predicate holds. */
  lemma DispatchedRows(log: seq<AssignmentRow>, processed: seq<ProcessedRow>, workspaceId: string,
                       subs: Subscriptions, d: Dispatched)
    requires d in Dispatch(log, processed, workspaceId, subs)
    ensures d.key.workspaceId == workspaceId
    ensures Latest(log, d.key).Some?
    ensures d.subscriber in FanOut(d.key.kind, d.key.computedPropertyId, subs)
    ensures d.segmentValue == Latest(log, d.key).value.segmentValue
    ensures d.userPropertyValue == Latest(log, d.key).value.userPropertyValue
    ensures ShouldDispatch(Latest(log, d.key).value, d.subscriber, ProcessedForGroup(processed, d.key, d.subscriber))
  {
  }

  /** A journey is never sent a false segment value, nor any user-property
      value. */
  lemma JourneyOnlySeesTrueSegments(log: seq<AssignmentRow>, processed: seq<ProcessedRow>, workspaceId: string,
                                    subs: Subscriptions, d: Dispatched)
    requires d in Dispatch(log, processed, workspaceId, subs)
    requires d.subscriber.forType == "journey"
    ensures d.key.kind == SegmentKind && d.segmentValue
  {
    var row, s :| row in log && row.workspaceId == workspaceId && s in FanOut(row.kind, row.computedPropertyId, subs)
                  && Latest(log, KeyOf(row)).Some?
                  && ShouldDispatch(Latest(log, KeyOf(row)).value, s, ProcessedForGroup(processed, KeyOf(row), s))
                  && d == Dispatched(KeyOf(row), s, Latest(log, KeyOf(row)).value.segmentValue,
                                     Latest(log, KeyOf(row)).value.userPropertyValue);
    var latest := Latest(log, KeyOf(row)).value;
    assert KeyOf(latest) == KeyOf(row);
    assert row.kind == SegmentKind;
  }

  /** The subscription maps of `processAssignments`, built from the
      journeys, integrations, user properties and segments. */
  function SubscriptionsOf<D>(journeys: seq<CP.Journey<D>>, getSubscribedSegments: D -> seq<string>,
                              integrations: seq<CP.Integration>, userProperties: seq<CP.NamedResource>,
                              segments: seq<CP.NamedResource>): Subscriptions
  {
    Subscriptions(CP.JourneyMap(journeys, getSubscribedSegments),
                  CP.IntegrationMap(integrations, userProperties, false),
                  CP.IntegrationMap(integrations, segments, true))
  }

  predicate IsSegment(kind: PropertyKind)
  {
    kind == SegmentKind
  }

  /** The resources an integration's subscribed names resolve against. */
  function ResourcesFor(kind: PropertyKind, userProperties: seq<CP.NamedResource>, segments: seq<CP.NamedResource>)
    : seq<CP.NamedResource>
  {
    if kind == SegmentKind then segments else userProperties
  }

  /** End to end: a selected row for a journey is a segment change the
      journey's definition subscribes to, and a selected row for an
      integration is a change of a property or segment the integration
      subscribes to by name. */
  lemma SubscribersReceiveOnlySubscribedChanges<D>(
    log: seq<AssignmentRow>, processed: seq<ProcessedRow>, workspaceId: string,
    journeys: seq<CP.Journey<D>>, getSubscribedSegments: D -> seq<string>,
    integrations: seq<CP.Integration>, userProperties: seq<CP.NamedResource>, segments: seq<CP.NamedResource>,
    d: Dispatched)
    requires d in Dispatch(log, processed, workspaceId,
                           SubscriptionsOf(journeys, getSubscribedSegments, integrations, userProperties, segments))
    ensures d.subscriber.forType == "journey" ==>
              exists i :: 0 <= i < |journeys| && journeys[i].id == d.subscriber.forName
                          && d.key.computedPropertyId in getSubscribedSegments(journeys[i].definition)
    ensures d.subscriber.forType == "integration" ==>
              exists i, k :: 0 <= i < |integrations| && integrations[i].name == d.subscriber.forName
                             && 0 <= k < |CP.SubscribedNames(integrations[i], IsSegment(d.key.kind))|
                             && CP.Resolve(ResourcesFor(d.key.kind, userProperties, segments),
                                           CP.SubscribedNames(integrations[i], IsSegment(d.key.kind))[k])
                                == Some(d.key.computedPropertyId)
  {
    var subs := SubscriptionsOf(journeys, getSubscribedSegments, integrations, userProperties, segments);
    DispatchedRows(log, processed, workspaceId, subs, d);
    var id := d.key.computedPropertyId;
    FanOutMembers(d.key.kind, id, subs, d.subscriber);
    if d.subscriber.forType == "journey" {
      CP.JourneyMapSpec(journeys, getSubscribedSegments);
    }
    if d.subscriber.forType == "integration" {
      CP.IntegrationSubscription(integrations, ResourcesFor(d.key.kind, userProperties, segments),
                                 IsSegment(d.key.kind), id, d.subscriber.forName);
    }
  }

  /** Every (group, subscriber) pair whose latest processed values equal
      the group's latest values. */
  predicate UpToDate(log: seq<AssignmentRow>, processed: seq<ProcessedRow>, workspaceId: string, subs: Subscriptions)
  {
    forall row, s :: row in log && row.workspaceId == workspaceId && s in FanOut(row.kind, row.computedPropertyId, subs)
                     && Latest(log, KeyOf(row)).Some? ==>
      var p := ProcessedForGroup(processed, KeyOf(row), s);
      p.Some? && p.value.segmentValue == Latest(log, KeyOf(row)).value.segmentValue
      && p.value.userPropertyValue == Latest(log, KeyOf(row)).value.userPropertyValue
  }

  /** Once every subscriber has processed the latest values, nothing is
      selected. */
  lemma NothingWhenUpToDate(log: seq<AssignmentRow>, processed: seq<ProcessedRow>, workspaceId: string,
                            subs: Subscriptions)
    requires UpToDate(log, processed, workspaceId, subs)
    ensures Dispatch(log, processed, workspaceId, subs) == {}
  {
    if d :| d in Dispatch(log, processed, workspaceId, subs) {
      var row, s :| row in log && row.workspaceId == workspaceId && s in FanOut(row.kind, row.computedPropertyId, subs)
                    && Latest(log, KeyOf(row)).Some?
                    && ShouldDispatch(Latest(log, KeyOf(row)).value, s, ProcessedForGroup(processed, KeyOf(row), s))
                    && d == Dispatched(KeyOf(row), s, Latest(log, KeyOf(row)).value.segmentValue,
                                       Latest(log, KeyOf(row)).value.userPropertyValue);
      assert false;
    }
  }

  /** A group never processed before is selected only when it carries a
      value: a non-empty user-property value, or a true segment value. */
  lemma FirstAssignmentNeedsValue(latest: AssignmentRow, s: Subscriber)
    ensures ShouldDispatch(latest, s, None) <==>
              || (latest.kind == UserPropertyKind && latest.userPropertyValue != "\"\"" && latest.userPropertyValue != "")
              || (latest.kind == SegmentKind && latest.segmentValue)
  {
  }

  /** A segment that leaves (true to false) after it was processed is
      selected for pg and integrations, and never for journeys. */
  lemma SegmentExitReachesNonJourneys(latest: AssignmentRow, s: Subscriber, p: ProcessedRow)
    requires latest.kind == SegmentKind && !latest.segmentValue && p.segmentValue
    requires p.workspaceId != ""
    ensures ShouldDispatch(latest, s, Some(p)) <==> s.forType != "journey"
  {
  }

  /** Recording a processed row with the latest values, newer than every
      earlier processed row of that group and subscriber, removes exactly
      that pair from the selection. */
  lemma RecordingSuppresses(log: seq<AssignmentRow>, processed: seq<ProcessedRow>, workspaceId: string,
                            subs: Subscriptions, d: Dispatched, p: ProcessedRow)
    requires d in Dispatch(log, processed, workspaceId, subs)
    requires p == ProcessedRow(d.key.workspaceId, d.key.computedPropertyId, d.key.userId, d.subscriber,
                               d.segmentValue, d.userPropertyValue, p.processedAt)
    requires forall i :: 0 <= i < |processed|
                         && ProcessedFor(processed[i], d.key.workspaceId, d.key.computedPropertyId, d.key.userId, d.subscriber)
                         ==> processed[i].processedAt <= p.processedAt
    ensures d !in Dispatch(log, processed + [p], workspaceId, subs)
    ensures forall e :: e in Dispatch(log, processed, workspaceId, subs) && !SameTarget(e, d)
                        ==> e in Dispatch(log, processed + [p], workspaceId, subs)
  {
    DispatchedRows(log, processed, workspaceId, subs, d);
    var after := processed + [p];
    assert after[..|after| - 1] == processed;
    assert ProcessedForGroup(after, d.key, d.subscriber) == Some(p);
    if d in Dispatch(log, after, workspaceId, subs) {
      DispatchedRows(log, after, workspaceId, subs, d);
      assert false;
    }
    forall e | e in Dispatch(log, processed, workspaceId, subs) && !SameTarget(e, d)
      ensures e in Dispatch(log, after, workspaceId, subs)
    {
      DispatchedRows(log, processed, workspaceId, subs, e);
      assert ProcessedForGroup(after, e.key, e.subscriber) == ProcessedForGroup(processed, e.key, e.subscriber);
      var row :| row in log && KeyOf(row) == e.key;
      assert row.workspaceId == workspaceId;
    }
  }

  /** Two selected rows address the same processed-table entry: the
      processed table is keyed by workspace, property, user and subscriber,
      not by kind. */
  predicate SameTarget(e: Dispatched, d: Dispatched)
  {
    e.key.workspaceId == d.key.workspaceId && e.key.computedPropertyId == d.key.computedPropertyId
    && e.key.userId == d.key.userId && e.subscriber == d.subscriber
  }
}
