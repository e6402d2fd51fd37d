/** Properties of the keyed segment evaluator: bounds and additivity of the
    count, monotonicity of the `>=` verdict, isolation between key values,
    the effect of missing properties and unsupported operators, and the
    appointment-cancellation scenario, evaluated both with `jsonValue` as
    written and with a first-match lookup. */
module KeyedSegmentProperties {
  import opened Wrappers
  import opened Json
  import opened Segments

  lemma {:induction false} CountAppend(jsonValue: JsonValueLookup, params: FilterParams,
                                       a: seq<TrackEvent>, b: seq<TrackEvent>)
    ensures CountMatching(jsonValue, params, a + b)
            == CountMatching(jsonValue, params, a) + CountMatching(jsonValue, params, b)
  {
    if b == [] {
      assert a + b == a;
    } else {
      var b' := b[..|b| - 1];
      assert (a + b)[..|a + b| - 1] == a + b';
      assert (a + b)[|a + b| - 1] == b[|b| - 1];
      CountAppend(jsonValue, params, a, b');
    }
  }

  /** Events the filter rejects contribute nothing to the count. */
  lemma {:induction false} RejectedEventsCountZero(jsonValue: JsonValueLookup, params: FilterParams,
                                                   noise: seq<TrackEvent>)
    requires forall i :: 0 <= i < |noise| ==> !EventMatches(jsonValue, params, noise[i])
    ensures CountMatching(jsonValue, params, noise) == 0
  {
    if noise != [] {
      RejectedEventsCountZero(jsonValue, params, noise[..|noise| - 1]);
    }
  }

  lemma RejectedEventsIgnored(jsonValue: JsonValueLookup, params: FilterParams,
                              a: seq<TrackEvent>, noise: seq<TrackEvent>, b: seq<TrackEvent>)
    requires forall i :: 0 <= i < |noise| ==> !EventMatches(jsonValue, params, noise[i])
    ensures CountMatching(jsonValue, params, a + noise + b) == CountMatching(jsonValue, params, a + b)
  {
    CountAppend(jsonValue, params, a + noise, b);
    CountAppend(jsonValue, params, a, noise);
    CountAppend(jsonValue, params, a, b);
    RejectedEventsCountZero(jsonValue, params, noise);
  }

  /** Appending events never lowers the count, so a `>=` verdict that holds
      keeps holding as more events arrive. */
  lemma GreaterOrEqualIsMonotone(jsonValue: JsonValueLookup, events: seq<TrackEvent>, more: seq<TrackEvent>,
                                 keyValue: string, definition: KeyedPerformedSegmentNode)
    requires definition.timesOperator.GetOr(GreaterThanOrEqual) == GreaterThanOrEqual
    ensures KeyedSegmentValue(jsonValue, events, keyValue, definition)
            ==> KeyedSegmentValue(jsonValue, events + more, keyValue, definition)
  {
    CountAppend(jsonValue, KeyedFilterParams(definition, keyValue), events, more);
  }

  /** With neither `times` nor `timesOperator`, the segment holds exactly
      when at least one event passes the filter. */
  lemma DefaultThresholdIsAtLeastOnce(jsonValue: JsonValueLookup, events: seq<TrackEvent>, keyValue: string,
                                      definition: KeyedPerformedSegmentNode)
    requires definition.times.None? && definition.timesOperator.None?
    ensures KeyedSegmentValue(jsonValue, events, keyValue, definition)
            <==> exists i :: 0 <= i < |events|
                   && EventMatches(jsonValue, KeyedFilterParams(definition, keyValue), events[i])
  {
    var params := KeyedFilterParams(definition, keyValue);
    if forall i :: 0 <= i < |events| ==> !EventMatches(jsonValue, params, events[i]) {
      RejectedEventsCountZero(jsonValue, params, events);
    } else {
      var i :| 0 <= i < |events| && EventMatches(jsonValue, params, events[i]);
      assert events == events[..i] + [events[i]] + events[i + 1..];
      CountAppend(jsonValue, params, events[..i] + [events[i]], events[i + 1..]);
      CountAppend(jsonValue, params, events[..i], [events[i]]);
      assert [events[i]][..0] == [];
    }
  }

  /** Events for another event name, or whose key resolves to anything but
      the key value, never change the verdict for this key value: two
      instances keyed on different values do not see each other's events. */
  lemma OtherKeysAndNamesAreIsolated(jsonValue: JsonValueLookup, a: seq<TrackEvent>, noise: seq<TrackEvent>,
                                     b: seq<TrackEvent>, keyValue: string, definition: KeyedPerformedSegmentNode)
    requires forall i :: 0 <= i < |noise| ==>
               noise[i].event != definition.event
               || !KeyMatches(jsonValue, noise[i], definition.key, keyValue)
    ensures KeyedSegmentValue(jsonValue, a + noise + b, keyValue, definition)
            == KeyedSegmentValue(jsonValue, a + b, keyValue, definition)
  {
    RejectedEventsIgnored(jsonValue, KeyedFilterParams(definition, keyValue), a, noise, b);
  }

  /** An event whose key resolves to a different string is never counted. */
  lemma DifferentKeyValueNotCounted(jsonValue: JsonValueLookup, e: TrackEvent, keyValue: string,
                                    otherValue: string, definition: KeyedPerformedSegmentNode)
    requires jsonValue(e.properties, definition.key) == Some(JString(otherValue))
    requires otherValue != keyValue
    ensures !EventMatches(jsonValue, KeyedFilterParams(definition, keyValue), e)
  {
  }

  /** An event lacking a property that a condition constrains (the lookup
      yields undefined) is rejected, whatever the operator, unless an
      Equals condition expects undefined itself. */
  lemma MissingPropertyRejects(jsonValue: JsonValueLookup, params: FilterParams, e: TrackEvent, i: nat)
    requires i < |Conditions(params)|
    requires jsonValue(e.properties, Conditions(params)[i].path) == Some(JUndefined)
    requires Conditions(params)[i].operator.OpEquals? ==> Conditions(params)[i].operator.value != JUndefined
    ensures !EventMatches(jsonValue, params, e)
  {
    assert !ConditionHolds(Conditions(params)[i].operator, ConditionValue(jsonValue, e, Conditions(params)[i].path));
  }

  /** A definition carrying an unsupported operator counts no event at all. */
  lemma UnsupportedOperatorCountsNothing(jsonValue: JsonValueLookup, events: seq<TrackEvent>, keyValue: string,
                                         definition: KeyedPerformedSegmentNode, i: nat)
    requires definition.properties.Some? && i < |definition.properties.value|
    requires definition.properties.value[i].operator.OpUnsupported?
    ensures CountMatching(jsonValue, KeyedFilterParams(definition, keyValue), events) == 0
  {
    var params := KeyedFilterParams(definition, keyValue);
    forall k | 0 <= k < |events| ensures !EventMatches(jsonValue, params, events[k]) {
      assert !ConditionHolds(Conditions(params)[i].operator, ConditionValue(jsonValue, events[k], Conditions(params)[i].path));
    }
    RejectedEventsCountZero(jsonValue, params, events);
  }

  /** `jsonValue` as written returns the match list, and a list is never
      strictly equal to the key string: no event is ever counted. */
  lemma {:induction false} AsWrittenCountsNothing(query: PathQuery, params: FilterParams, events: seq<TrackEvent>)
    ensures CountMatching(JsonValueAsWritten(query), params, events) == 0
  {
    if events != [] {
      AsWrittenCountsNothing(query, params, events[..|events| - 1]);
      var e := events[|events| - 1];
      assert !KeyMatches(JsonValueAsWritten(query), e, params.propertyPath, params.propertyValue);
    }
  }

  lemma AsWrittenVerdictIgnoresEvents(query: PathQuery, events: seq<TrackEvent>, keyValue: string,
                                      definition: KeyedPerformedSegmentNode)
    ensures KeyedSegmentValue(JsonValueAsWritten(query), events, keyValue, definition)
            == TimesVerdict(0, definition.times.GetOr(1), definition.timesOperator.GetOr(GreaterThanOrEqual))
  {
    AsWrittenCountsNothing(query, KeyedFilterParams(definition, keyValue), events);
  }

  // ---------------------------------------------------------------------
  // The appointment-cancellation scenario
  // ---------------------------------------------------------------------

  function FieldMatches(fields: seq<(string, JsonValue)>, name: string): seq<JsonValue>
  {
    if fields == [] then []
    else if fields[0].0 == name then [fields[0].1]
    else FieldMatches(fields[1..], name)
  }

  /** A path query for one-segment paths: the named field of an object. */
  function FieldQuery(data: JsonValue, path: string): Option<seq<JsonValue>>
  {
    match data
    case JObject(fields) => Some(FieldMatches(fields, path))
    case _ => Some([])
  }

  function Appointment(messageId: string, appointmentId: string, operation: string): TrackEvent
  {
    TrackEvent("APPOINTMENT_UPDATE", messageId,
               JObject([("appointmentId", JString(appointmentId)), ("operation", JString(operation))]))
  }

  function CancelledSegment(): KeyedPerformedSegmentNode
  {
    KeyedPerformedSegmentNode("segment-entry", "APPOINTMENT_UPDATE", "appointmentId", None, None,
                              Some([PropertyCondition("operation", OpEquals(JString("CANCELLED")))]))
  }

  /** Two updates of appointment A, the second a cancellation: the
      cancellation segment holds for key A and not for key B. */
  lemma CancellationScenario()
    ensures KeyedSegmentValue(JsonValueFirstMatch(FieldQuery),
                              [Appointment("m1", "A", "started"), Appointment("m2", "A", "CANCELLED")],
                              "A", CancelledSegment())
    ensures !KeyedSegmentValue(JsonValueFirstMatch(FieldQuery),
                               [Appointment("m1", "A", "started"), Appointment("m2", "A", "CANCELLED")],
                               "B", CancelledSegment())
  {
    var jv := JsonValueFirstMatch(FieldQuery);
    var started := Appointment("m1", "A", "started");
    var cancelled := Appointment("m2", "A", "CANCELLED");
    var events := [started, cancelled];
    var paramsA := KeyedFilterParams(CancelledSegment(), "A");
    var paramsB := KeyedFilterParams(CancelledSegment(), "B");
    assert jv(started.properties, "operation") == Some(JString("started"));
    assert jv(cancelled.properties, "operation") == Some(JString("CANCELLED"));
    assert jv(cancelled.properties, "appointmentId") == Some(JString("A"));
    assert jv(started.properties, "appointmentId") == Some(JString("A"));
    assert Conditions(paramsA)[0].path == "operation";
    assert !EventMatches(jv, paramsA, started);
    assert EventMatches(jv, paramsA, cancelled);
    assert !EventMatches(jv, paramsB, started);
    assert !EventMatches(jv, paramsB, cancelled);
    assert events[..1] == [started];
    assert [started][..0] == [];
  }

  /** The same scenario with `jsonValue` as written: the cancellation is
      not recognised for key A either. */
  lemma CancellationScenarioAsWritten()
    ensures !KeyedSegmentValue(JsonValueAsWritten(FieldQuery),
                               [Appointment("m1", "A", "started"), Appointment("m2", "A", "CANCELLED")],
                               "A", CancelledSegment())
  {
    AsWrittenVerdictIgnoresEvents(FieldQuery,
                                  [Appointment("m1", "A", "started"), Appointment("m2", "A", "CANCELLED")],
                                  "A", CancelledSegment());
  }
}
