/** The TypeScript side of packages/backend-lib/src/computedProperties/computeProperties.ts:
    sub-query construction in `computeState` with its deterministic state
    id, bucketing of sub-queries by resume point, the per-bucket scan
    window, the variant dispatch of `computeAssignments`, and the three
    subscription maps `processAssignments` builds before it runs the
    dispatch query. The ClickHouse statements themselves are represented by
    the values they are parameterised with. */
module ComputeProperties {
  import opened Wrappers

  // ---------------------------------------------------------------------
  // Definitions, sub-queries and state ids
  // ---------------------------------------------------------------------

  /** A user-property definition: only the Trait variant is handled; every
      other variant is represented by its type name. */
  datatype UserPropertyDefinition = Trait(path: string) | NonTrait(typeName: string)

  datatype UserProperty = UserProperty(id: string, name: string, updatedAt: int, definition: UserPropertyDefinition)

  /** `uuidv5(updatedAt.toString(), id)`: a deterministic, otherwise
      uninterpreted hash of the definition's update time and id. */
  type StateIdHash = (int, string) -> string

  function StateId(hash: StateIdHash, up: UserProperty): string
  {
    hash(up.updatedAt, up.id)
  }

  /** One entry of `subQueryData`: the property, its state id, and the trait
      path whose non-empty value the condition tests and the aggregate
      extracts. */
  datatype SubQuery = SubQuery(computedPropertyId: string, stateId: string, extractedPath: string)

  /** The Trait sub-query as written: the condition and the extraction name
      the `email` property, whatever path the definition carries. */
  function TraitSubQueryAsWritten(hash: StateIdHash, up: UserProperty): SubQuery
  {
    SubQuery(up.id, StateId(hash, up), "email")
  }

  /** The Trait sub-query extracting the definition's own path. */
  function TraitSubQuery(hash: StateIdHash, up: UserProperty): SubQuery
    requires up.definition.Trait?
  {
    SubQuery(up.id, StateId(hash, up), up.definition.path)
  }

  /** Which path a Trait sub-query extracts: `email`, as the code is
      written, or the definition's own path, as evidently intended. The
      `computeState` plan below is stated for both. */
  datatype Extraction = AsWrittenEmail | DefinitionPath

  function BuildTraitSubQuery(extraction: Extraction, hash: StateIdHash, up: UserProperty): (r: SubQuery)
    requires up.definition.Trait?
    ensures r.computedPropertyId == up.id && r.stateId == StateId(hash, up)
  {
    match extraction
    case AsWrittenEmail => TraitSubQueryAsWritten(hash, up)
    case DefinitionPath => TraitSubQuery(hash, up)
  }

  /** As written, two Trait properties that differ only in their path get
      the same sub-query: a `firstName` trait aggregates the `email` value. */
  lemma AsWrittenIgnoresTraitPath(hash: StateIdHash, id: string, updatedAt: int)
    ensures TraitSubQueryAsWritten(hash, UserProperty(id, "firstName", updatedAt, Trait("firstName"))).extractedPath
            != "firstName"
    ensures TraitSubQueryAsWritten(hash, UserProperty(id, "firstName", updatedAt, Trait("firstName")))
            == TraitSubQueryAsWritten(hash, UserProperty(id, "firstName", updatedAt, Trait("email")))
  {
  }

  /** Corrected: the sub-query tracks the definition's path, so properties
      differing in their path never share a sub-query. */
  lemma TraitSubQueryDistinguishesPaths(hash: StateIdHash, a: UserProperty, b: UserProperty)
    requires a.definition.Trait? && b.definition.Trait?
    ensures TraitSubQuery(hash, a).extractedPath == a.definition.path
    ensures a.definition.path != b.definition.path ==> TraitSubQuery(hash, a) != TraitSubQuery(hash, b)
  {
  }

  /** The type name of the first definition that is not a Trait, if any. */
  function FirstUnhandled(ups: seq<UserProperty>): (r: Option<string>)
    ensures r.None? <==> forall i :: 0 <= i < |ups| ==> ups[i].definition.Trait?
    ensures r.Some? ==> exists i :: 0 <= i < |ups| && ups[i].definition == NonTrait(r.value)
                                    && forall j :: 0 <= j < i ==> ups[j].definition.Trait?
  {
    if ups == [] then None
    else if ups[0].definition.NonTrait? then Some(ups[0].definition.typeName)
    else
      var r := FirstUnhandled(ups[1..]);
      assert forall i :: 1 <= i < |ups| ==> ups[1..][i - 1] == ups[i];
      assert r.Some? ==> exists i :: 1 <= i < |ups| && ups[i].definition == NonTrait(r.value)
                                     && forall j :: 0 <= j < i ==> ups[j].definition.Trait? by {
        if r.Some? {
          var i :| 0 <= i < |ups[1..]| && ups[1..][i].definition == NonTrait(r.value)
                   && forall j :: 0 <= j < i ==> ups[1..][j].definition.Trait?;
          assert ups[i + 1].definition == NonTrait(r.value);
          forall j | 0 <= j < i + 1 ensures ups[j].definition.Trait? {
            if j > 0 { assert ups[j] == ups[1..][j - 1]; }
          }
        }
      }
      r
  }

  /** The first definition that is not a Trait decides the error. */
  lemma {:induction false} FirstUnhandledAt(ups: seq<UserProperty>, i: nat)
    requires i < |ups| && ups[i].definition.NonTrait?
    requires forall j :: 0 <= j < i ==> ups[j].definition.Trait?
    ensures FirstUnhandled(ups) == Some(ups[i].definition.typeName)
  {
    if i > 0 {
      assert forall j :: 0 <= j < i - 1 ==> ups[1..][j] == ups[j + 1];
      FirstUnhandledAt(ups[1..], i - 1);
    }
  }

  /** The sub-queries of a list of Trait properties, in order. */
  function SubQueries(extraction: Extraction, hash: StateIdHash, ups: seq<UserProperty>): (r: seq<SubQuery>)
    requires forall i :: 0 <= i < |ups| ==> ups[i].definition.Trait?
    ensures |r| == |ups|
    ensures forall i :: 0 <= i < |ups| ==> r[i] == BuildTraitSubQuery(extraction, hash, ups[i])
  {
    if ups == [] then []
    else SubQueries(extraction, hash, ups[..|ups| - 1]) + [BuildTraitSubQuery(extraction, hash, ups[|ups| - 1])]
  }

  // ---------------------------------------------------------------------
  // Resume points and bucketing
  // ---------------------------------------------------------------------

  /** A row of the periods query: a property and the largest `to` of its
      recorded ComputeState periods, in milliseconds. */
  datatype PeriodRow = PeriodRow(computedPropertyId: string, maxTo: int)

  /** `periodByComputedPropertyId.get(id)`: each row is `set` in order, so
      the last row for the id wins. */
  function PeriodMaxTo(periods: seq<PeriodRow>, id: string): Option<int>
  {
    if periods == [] then None
    else if periods[|periods| - 1].computedPropertyId == id then Some(periods[|periods| - 1].maxTo)
    else PeriodMaxTo(periods[..|periods| - 1], id)
  }

  /** No period for a property without rows; otherwise the `maxTo` of the
      last row recorded for it. */
  lemma {:induction false} PeriodMaxToSpec(periods: seq<PeriodRow>, id: string)
    ensures PeriodMaxTo(periods, id).None? <==> forall i :: 0 <= i < |periods| ==> periods[i].computedPropertyId != id
    ensures PeriodMaxTo(periods, id).Some? ==>
              exists i :: 0 <= i < |periods| && periods[i] == PeriodRow(id, PeriodMaxTo(periods, id).value)
                          && forall j :: i < j < |periods| ==> periods[j].computedPropertyId != id
  {
    if periods != [] && periods[|periods| - 1].computedPropertyId != id {
      var init := periods[..|periods| - 1];
      PeriodMaxToSpec(init, id);
      assert forall i :: 0 <= i < |init| ==> init[i] == periods[i];
    }
  }

  /** `period?.maxTo.getTime() ?? 0`. */
  function BucketKey(periods: seq<PeriodRow>, q: SubQuery): int
  {
    PeriodMaxTo(periods, q.computedPropertyId).GetOr(0)
  }

  /** The sub-queries whose bucket key is `key`, in their original order. */
  function InBucket(periods: seq<PeriodRow>, qs: seq<SubQuery>, key: int): (r: seq<SubQuery>)
    ensures forall x :: x in r <==> x in qs && BucketKey(periods, x) == key
  {
    if qs == [] then []
    else
      var last := qs[|qs| - 1];
      assert forall x :: x in qs <==> x in qs[..|qs| - 1] || x == last by {
        assert qs == qs[..|qs| - 1] + [last];
      }
      InBucket(periods, qs[..|qs| - 1], key) + (if BucketKey(periods, last) == key then [last] else [])
  }

  /** The `subQueriesWithPeriods` reduce: each sub-query is appended to the
      list under its bucket key. */
  function Buckets(periods: seq<PeriodRow>, qs: seq<SubQuery>): map<int, seq<SubQuery>>
  {
    if qs == [] then map[]
    else
      var memo := Buckets(periods, qs[..|qs| - 1]);
      var q := qs[|qs| - 1];
      var key := BucketKey(periods, q);
      memo[key := (if key in memo then memo[key] else []) + [q]]
  }

  /** The buckets are exactly the keys that occur. */
  lemma {:induction false} BucketsKeys(periods: seq<PeriodRow>, qs: seq<SubQuery>)
    ensures forall key :: key in Buckets(periods, qs) <==>
              exists i :: 0 <= i < |qs| && BucketKey(periods, qs[i]) == key
  {
    if qs != [] {
      var init := qs[..|qs| - 1];
      BucketsKeys(periods, init);
      forall key ensures key in Buckets(periods, qs) <==>
                         exists i :: 0 <= i < |qs| && BucketKey(periods, qs[i]) == key {
        if key in Buckets(periods, init) {
          var i :| 0 <= i < |init| && BucketKey(periods, init[i]) == key;
          assert qs[i] == init[i];
        }
        if exists i :: 0 <= i < |qs| && BucketKey(periods, qs[i]) == key {
          var i :| 0 <= i < |qs| && BucketKey(periods, qs[i]) == key;
          if i < |init| { assert init[i] == qs[i]; }
        }
      }
    }
  }

  /** Each bucket holds the sub-queries with its key, in their original
      order, and a key with no bucket has none. */
  lemma {:induction false} BucketsContents(periods: seq<PeriodRow>, qs: seq<SubQuery>, key: int)
    ensures (if key in Buckets(periods, qs) then Buckets(periods, qs)[key] else []) == InBucket(periods, qs, key)
  {
    if qs != [] {
      var init := qs[..|qs| - 1];
      var q := qs[|qs| - 1];
      BucketsContents(periods, init, key);
      var before := if key in Buckets(periods, init) then Buckets(periods, init)[key] else [];
      assert InBucket(periods, qs, key) == before + (if BucketKey(periods, q) == key then [q] else []);
    }
  }

  /** Every sub-query lands in the bucket of its key and in no other. */
  lemma SubQueryInItsBucket(periods: seq<PeriodRow>, qs: seq<SubQuery>, i: nat)
    requires i < |qs|
    ensures BucketKey(periods, qs[i]) in Buckets(periods, qs)
    ensures qs[i] in Buckets(periods, qs)[BucketKey(periods, qs[i])]
    ensures forall key :: key in Buckets(periods, qs) && qs[i] in Buckets(periods, qs)[key]
                          ==> key == BucketKey(periods, qs[i])
  {
    BucketsKeys(periods, qs);
    BucketsContents(periods, qs, BucketKey(periods, qs[i]));
    forall key | key in Buckets(periods, qs) && qs[i] in Buckets(periods, qs)[key]
      ensures key == BucketKey(periods, qs[i])
    {
      BucketsContents(periods, qs, key);
    }
  }

  // ---------------------------------------------------------------------
  // Scans
  // ---------------------------------------------------------------------

  /** One `insert into computed_property_state ... select` statement: the
      processing-time window it reads and the sub-queries it evaluates. */
  datatype Scan = Scan(lowerBound: Option<int>, upperBound: int, subQueries: seq<SubQuery>)

  /** The lower-bound clause. `mapValues` hands the bucket key over as a
      string, so `period !== 0` holds for every bucket and the clause is
      always present; bucket 0 reads from the epoch. */
  function LowerBound(key: int): Option<int>
  {
    Some(key)
  }

  function ScanFor(key: int, qs: seq<SubQuery>, now: int): Scan
  {
    Scan(LowerBound(key), now, qs)
  }

  predicate InWindow(scan: Scan, processingTime: int)
  {
    (scan.lowerBound.Some? ==> scan.lowerBound.value <= processingTime) && processingTime < scan.upperBound
  }

  /** The scan of a bucket reads exactly the processing times in
      `[key, now)`; for bucket 0 that is every non-negative time before
      `now`, as if the bound were omitted. */
  lemma ScanWindow(key: int, qs: seq<SubQuery>, now: int, t: int)
    ensures InWindow(ScanFor(key, qs, now), t) <==> key <= t < now
    ensures key == 0 && t >= 0 ==> (InWindow(ScanFor(key, qs, now), t) <==> InWindow(Scan(None, now, qs), t))
  {
  }

  /** What `computeState` issues: an error for the first unhandled
      definition, otherwise one scan per bucket (none at all when there are
      no sub-queries). */
  function ComputeStatePlan(extraction: Extraction, hash: StateIdHash, ups: seq<UserProperty>, periods: seq<PeriodRow>, now: int)
    : Result<map<int, Scan>, string>
  {
    match FirstUnhandled(ups)
    case Some(typeName) => Err(typeName)
    case None =>
      var buckets := Buckets(periods, SubQueries(extraction, hash, ups));
      Ok(map key | key in buckets :: ScanFor(key, buckets[key], now))
  }

  /** `computeState`: the sub-query loop (throwing on the first unhandled
      definition, before anything is issued), the early return when there
      is nothing to compute, then one scan per bucket. */
  method ComputeState(extraction: Extraction, hash: StateIdHash, userProperties: seq<UserProperty>,
                      periods: seq<PeriodRow>, now: int)
    returns (r: Result<map<int, Scan>, string>)
    ensures r == ComputeStatePlan(extraction, hash, userProperties, periods, now)
  {
    var subQueryData: seq<SubQuery> := [];
    var i := 0;
    while i < |userProperties|
      invariant 0 <= i <= |userProperties|
      invariant forall j :: 0 <= j < i ==> userProperties[j].definition.Trait?
      invariant subQueryData == SubQueries(extraction, hash, userProperties[..i])
    {
      assert userProperties[..i + 1][..i] == userProperties[..i];
      match userProperties[i].definition {
        case Trait(_) =>
          subQueryData := subQueryData + [BuildTraitSubQuery(extraction, hash, userProperties[i])];
        case NonTrait(typeName) =>
          FirstUnhandledAt(userProperties, i);
          return Err(typeName);
      }
      i := i + 1;
    }
    assert userProperties[..i] == userProperties;
    if |subQueryData| == 0 {
      return Ok(map[]);
    }
    var buckets := Buckets(periods, subQueryData);
    r := Ok(map key | key in buckets :: ScanFor(key, buckets[key], now));
  }

  /** With no definitions nothing is scanned; with only Trait definitions
      every sub-query is evaluated by exactly the scan of its bucket. */
  lemma ComputeStateScans(extraction: Extraction, hash: StateIdHash, ups: seq<UserProperty>, periods: seq<PeriodRow>, now: int)
    ensures ups == [] ==> ComputeStatePlan(extraction, hash, ups, periods, now) == Ok(map[])
    ensures ComputeStatePlan(extraction, hash, ups, periods, now).Ok? ==>
              forall i :: 0 <= i < |ups| ==>
                var q := BuildTraitSubQuery(extraction, hash, ups[i]);
                var scans := ComputeStatePlan(extraction, hash, ups, periods, now).value;
                && BucketKey(periods, q) in scans
                && q in scans[BucketKey(periods, q)].subQueries
                && scans[BucketKey(periods, q)].lowerBound == Some(BucketKey(periods, q))
                && scans[BucketKey(periods, q)].upperBound == now
  {
    if ComputeStatePlan(extraction, hash, ups, periods, now).Ok? {
      forall i | 0 <= i < |ups|
        ensures var q := BuildTraitSubQuery(extraction, hash, ups[i]);
                var scans := ComputeStatePlan(extraction, hash, ups, periods, now).value;
                && BucketKey(periods, q) in scans
                && q in scans[BucketKey(periods, q)].subQueries
                && scans[BucketKey(periods, q)].lowerBound == Some(BucketKey(periods, q))
                && scans[BucketKey(periods, q)].upperBound == now
      {
        SubQueryInItsBucket(periods, SubQueries(extraction, hash, ups), i);
      }
    }
  }

  /** As written, every sub-query of every scan extracts `email`, whatever
      paths the Trait definitions carry; with the definition's own path,
      every sub-query extracts the path of the property it belongs to. */
  lemma PlanExtractedPaths(extraction: Extraction, hash: StateIdHash, ups: seq<UserProperty>,
                           periods: seq<PeriodRow>, now: int, key: int, q: SubQuery)
    requires ComputeStatePlan(extraction, hash, ups, periods, now).Ok?
    requires key in ComputeStatePlan(extraction, hash, ups, periods, now).value
    requires q in ComputeStatePlan(extraction, hash, ups, periods, now).value[key].subQueries
    ensures extraction.AsWrittenEmail? ==> q.extractedPath == "email"
    ensures extraction.DefinitionPath? ==>
              exists i :: 0 <= i < |ups| && ups[i].id == q.computedPropertyId
                          && ups[i].definition == Trait(q.extractedPath)
  {
    var qs := SubQueries(extraction, hash, ups);
    BucketsContents(periods, qs, key);
    assert q in InBucket(periods, qs, key);
    var i :| 0 <= i < |qs| && qs[i] == q;
    assert q == BuildTraitSubQuery(extraction, hash, ups[i]);
  }

  // ---------------------------------------------------------------------
  // computeAssignments
  // ---------------------------------------------------------------------

  /** One `insert into computed_property_assignments_v2` statement: it
      merges the state rows of this property and state id. */
  datatype AssignmentQuery = AssignmentQuery(computedPropertyId: string, stateId: string)

  function AssignmentQueryFor(hash: StateIdHash, up: UserProperty): AssignmentQuery
  {
    AssignmentQuery(up.id, StateId(hash, up))
  }

  /** `computeAssignments`: one statement per Trait property in order; the
      first unhandled definition throws, after the statements for the
      properties before it have already been issued. */
  method ComputeAssignments(hash: StateIdHash, userProperties: seq<UserProperty>)
    returns (issued: seq<AssignmentQuery>, error: Option<string>)
    ensures error == FirstUnhandled(userProperties)
    ensures error.None? ==> |issued| == |userProperties|
    ensures error.Some? ==> |issued| < |userProperties|
                            && userProperties[|issued|].definition == NonTrait(error.value)
    ensures forall i :: 0 <= i < |issued| ==> userProperties[i].definition.Trait?
                                              && issued[i] == AssignmentQueryFor(hash, userProperties[i])
  {
    issued := [];
    var i := 0;
    while i < |userProperties|
      invariant 0 <= i <= |userProperties|
      invariant |issued| == i
      invariant forall j :: 0 <= j < i ==> userProperties[j].definition.Trait?
                                           && issued[j] == AssignmentQueryFor(hash, userProperties[j])
    {
      match userProperties[i].definition {
        case Trait(_) =>
          issued := issued + [AssignmentQueryFor(hash, userProperties[i])];
        case NonTrait(typeName) =>
          error := Some(typeName);
          FirstUnhandledAt(userProperties, i);
          return;
      }
      i := i + 1;
    }
    error := None;
  }

  /** The state written by `computeState` is the state `computeAssignments`
      selects: when `computeState` succeeds, the (property, state id) pair
      of every assignment statement is carried by a sub-query of some scan,
      and both steps fail on the same unhandled definition. */
  lemma StateIdsAgree(extraction: Extraction, hash: StateIdHash, ups: seq<UserProperty>, periods: seq<PeriodRow>, now: int, i: nat)
    requires i < |ups|
    requires ComputeStatePlan(extraction, hash, ups, periods, now).Ok?
    ensures ups[i].definition.Trait?
    ensures exists key :: key in ComputeStatePlan(extraction, hash, ups, periods, now).value
                          && exists q :: q in ComputeStatePlan(extraction, hash, ups, periods, now).value[key].subQueries
                                         && q.computedPropertyId == AssignmentQueryFor(hash, ups[i]).computedPropertyId
                                         && q.stateId == AssignmentQueryFor(hash, ups[i]).stateId
  {
    ComputeStateScans(extraction, hash, ups, periods, now);
    var q := BuildTraitSubQuery(extraction, hash, ups[i]);
    assert q in ComputeStatePlan(extraction, hash, ups, periods, now).value[BucketKey(periods, q)].subQueries;
  }

  /** Both steps reject the same definition: `computeState` fails exactly
      when `computeAssignments` reports an error, with the same type name. */
  lemma UnhandledDefinitionRejectedByBoth(extraction: Extraction, hash: StateIdHash, ups: seq<UserProperty>, periods: seq<PeriodRow>, now: int)
    ensures ComputeStatePlan(extraction, hash, ups, periods, now).Err?
            <==> exists i :: 0 <= i < |ups| && ups[i].definition.NonTrait?
    ensures ComputeStatePlan(extraction, hash, ups, periods, now).Err? ==>
              Some(ComputeStatePlan(extraction, hash, ups, periods, now).error) == FirstUnhandled(ups)
  {
  }

  // ---------------------------------------------------------------------
  // Subscription maps of processAssignments
  // ---------------------------------------------------------------------

  /** `memo.get(key) ?? new Set()`, `add(value)`, `memo.set(key, ...)` for
      each key in order. */
  function Register(memo: map<string, set<string>>, keys: seq<string>, value: string): map<string, set<string>>
  {
    if keys == [] then memo
    else
      var prev := Register(memo, keys[..|keys| - 1], value);
      var k := keys[|keys| - 1];
      prev[k := (if k in prev then prev[k] else {}) + {value}]
  }

  /** Registering adds `value` to the set of every listed key, creating
      missing sets, and leaves every other key as it was. */
  lemma {:induction false} RegisterSpec(memo: map<string, set<string>>, keys: seq<string>, value: string)
    ensures forall k :: k in Register(memo, keys, value) <==> k in memo || k in keys
    ensures forall k :: k in Register(memo, keys, value) ==>
              Register(memo, keys, value)[k] == (if k in memo then memo[k] else {}) + (if k in keys then {value} else {})
  {
    if keys != [] {
      var init := keys[..|keys| - 1];
      RegisterSpec(memo, init, value);
      assert keys == init + [keys[|keys| - 1]];
    }
  }

  lemma RegisterSnoc(memo: map<string, set<string>>, keys: seq<string>, k: string, value: string)
    ensures Register(memo, keys + [k], value)
            == Register(memo, keys, value)[k := (if k in Register(memo, keys, value)
                                                 then Register(memo, keys, value)[k] else {}) + {value}]
  {
    assert (keys + [k])[..|keys|] == keys;
  }

  /** The `forEach` that adds `value` to the set of every key in turn. */
  method RegisterEach(memo: map<string, set<string>>, keys: seq<string>, value: string)
    returns (r: map<string, set<string>>)
    ensures r == Register(memo, keys, value)
  {
    r := memo;
    var k := 0;
    while k < |keys|
      invariant 0 <= k <= |keys|
      invariant r == Register(memo, keys[..k], value)
    {
      var key := keys[k];
      assert keys[..k + 1] == keys[..k] + [key];
      RegisterSnoc(memo, keys[..k], key, value);
      var processFor := if key in r then r[key] else {};
      r := r[key := processFor + {value}];
      k := k + 1;
    }
    assert keys[..k] == keys;
  }

  /** A journey: its id and its definition (kept as an opaque value). */
  datatype Journey<D> = Journey(id: string, definition: D)

  /** `subscribedJourneyMap`: segment id to the ids of the journeys whose
      definition subscribes to it. */
  function JourneyMap<D>(journeys: seq<Journey<D>>, getSubscribedSegments: D -> seq<string>): map<string, set<string>>
  {
    if journeys == [] then map[]
    else
      var j := journeys[|journeys| - 1];
      Register(JourneyMap(journeys[..|journeys| - 1], getSubscribedSegments), getSubscribedSegments(j.definition), j.id)
  }

  /** Journey `j` is registered under segment `s` iff some journey with id
      `j` subscribes to `s`; the keys are exactly the subscribed segments. */
  lemma {:induction false} JourneyMapSpec<D>(journeys: seq<Journey<D>>, getSubscribedSegments: D -> seq<string>)
    ensures forall s :: s in JourneyMap(journeys, getSubscribedSegments)
              <==> exists i :: 0 <= i < |journeys| && s in getSubscribedSegments(journeys[i].definition)
    ensures forall s, j :: s in JourneyMap(journeys, getSubscribedSegments) ==>
              (j in JourneyMap(journeys, getSubscribedSegments)[s]
               <==> exists i :: 0 <= i < |journeys| && journeys[i].id == j
                                && s in getSubscribedSegments(journeys[i].definition))
  {
    if journeys != [] {
      var n := |journeys| - 1;
      var init := journeys[..n];
      JourneyMapSpec(init, getSubscribedSegments);
      JourneyMapStep(init, journeys[n], getSubscribedSegments);
      assert init + [journeys[n]] == journeys;
    }
  }

  /** The induction step of `JourneyMapSpec`: appending one journey. */
  lemma JourneyMapStep<D>(init: seq<Journey<D>>, last: Journey<D>, getSubscribedSegments: D -> seq<string>)
    requires forall s :: s in JourneyMap(init, getSubscribedSegments)
              <==> exists i :: 0 <= i < |init| && s in getSubscribedSegments(init[i].definition)
    requires forall s, j :: s in JourneyMap(init, getSubscribedSegments) ==>
              (j in JourneyMap(init, getSubscribedSegments)[s]
               <==> exists i :: 0 <= i < |init| && init[i].id == j
                                && s in getSubscribedSegments(init[i].definition))
    ensures var journeys := init + [last];
            forall s :: s in JourneyMap(journeys, getSubscribedSegments)
              <==> exists i :: 0 <= i < |journeys| && s in getSubscribedSegments(journeys[i].definition)
    ensures var journeys := init + [last];
            forall s, j :: s in JourneyMap(journeys, getSubscribedSegments) ==>
              (j in JourneyMap(journeys, getSubscribedSegments)[s]
               <==> exists i :: 0 <= i < |journeys| && journeys[i].id == j
                                && s in getSubscribedSegments(journeys[i].definition))
  {
    var journeys := init + [last];
    var n := |init|;
    JourneyMapSnoc(init, last, getSubscribedSegments);
    RegisterSpec(JourneyMap(init, getSubscribedSegments), getSubscribedSegments(last.definition), last.id);
    assert journeys[n] == last;
    assert forall i :: 0 <= i < n ==> journeys[i] == init[i];
  }

  lemma JourneyMapSnoc<D>(journeys: seq<Journey<D>>, j: Journey<D>, getSubscribedSegments: D -> seq<string>)
    ensures JourneyMap(journeys + [j], getSubscribedSegments)
            == Register(JourneyMap(journeys, getSubscribedSegments), getSubscribedSegments(j.definition), j.id)
  {
    assert (journeys + [j])[..|journeys|] == journeys;
  }

  /** `processFor.add(j.id)` for every segment the journey subscribes to. */
  method BuildJourneyMap<D>(journeys: seq<Journey<D>>, getSubscribedSegments: D -> seq<string>)
    returns (memo: map<string, set<string>>)
    ensures memo == JourneyMap(journeys, getSubscribedSegments)
  {
    memo := map[];
    var i := 0;
    while i < |journeys|
      invariant 0 <= i <= |journeys|
      invariant memo == JourneyMap(journeys[..i], getSubscribedSegments)
    {
      var j := journeys[i];
      assert journeys[..i + 1] == journeys[..i] + [j];
      JourneyMapSnoc(journeys[..i], j, getSubscribedSegments);
      memo := RegisterEach(memo, getSubscribedSegments(j.definition), j.id);
      i := i + 1;
    }
    assert journeys[..i] == journeys;
  }

  /** A user property or segment, as far as name resolution sees it. */
  datatype NamedResource = NamedResource(id: string, name: string)

  /** `resources.find(r => r.name === name)?.id`, skipped when falsy. */
  function Resolve(resources: seq<NamedResource>, name: string): (r: Option<string>)
    ensures r.Some? ==> r.value != ""
                        && exists i :: 0 <= i < |resources| && resources[i] == NamedResource(r.value, name)
                                       && forall j :: 0 <= j < i ==> resources[j].name != name
    ensures r.None? <==> forall i :: 0 <= i < |resources| && resources[i].name == name ==>
                           resources[i].id == "" || exists j :: 0 <= j < i && resources[j].name == name
  {
    if resources == [] then None
    else if resources[0].name == name then
      if resources[0].id != "" then Some(resources[0].id) else None
    else
      var r := Resolve(resources[1..], name);
      assert forall i :: 1 <= i < |resources| ==> resources[1..][i - 1] == resources[i];
      assert r.Some? ==> exists i :: 0 <= i < |resources| && resources[i] == NamedResource(r.value, name)
                                     && forall j :: 0 <= j < i ==> resources[j].name != name by {
        if r.Some? {
          var i :| 0 <= i < |resources[1..]| && resources[1..][i] == NamedResource(r.value, name)
                   && forall j :: 0 <= j < i ==> resources[1..][j].name != name;
          assert resources[i + 1] == NamedResource(r.value, name);
          forall j | 0 <= j < i + 1 ensures resources[j].name != name {
            if j > 0 { assert resources[j] == resources[1..][j - 1]; }
          }
        }
      }
      assert r.None? ==> forall i :: 0 <= i < |resources| && resources[i].name == name ==>
                           resources[i].id == "" || exists j :: 0 <= j < i && resources[j].name == name by {
        if r.None? {
          forall i | 0 <= i < |resources| && resources[i].name == name
            ensures resources[i].id == "" || exists j :: 0 <= j < i && resources[j].name == name
          {
            assert i > 0;
            assert resources[1..][i - 1] == resources[i];
            if resources[i].id != "" {
              var j :| 0 <= j < i - 1 && resources[1..][j].name == name;
              assert resources[j + 1].name == name;
            }
          }
        }
      }
      r
  }

  /** The ids a list of names resolves to, skipping unresolvable names. */
  function ResolvedIds(resources: seq<NamedResource>, names: seq<string>): seq<string>
  {
    if names == [] then []
    else
      var last := Resolve(resources, names[|names| - 1]);
      ResolvedIds(resources, names[..|names| - 1]) + (if last.Some? then [last.value] else [])
  }

  /** An id is among the resolved ids iff some subscribed name resolves to it. */
  lemma {:induction false} ResolvedIdsSpec(resources: seq<NamedResource>, names: seq<string>)
    ensures forall id :: id in ResolvedIds(resources, names)
              <==> exists k :: 0 <= k < |names| && Resolve(resources, names[k]) == Some(id)
  {
    if names != [] {
      var init := names[..|names| - 1];
      ResolvedIdsSpec(resources, init);
      assert forall k :: 0 <= k < |init| ==> init[k] == names[k];
    }
  }

  datatype Integration = Integration(name: string, subscribedUserProperties: seq<string>, subscribedSegments: seq<string>)

  function SubscribedNames(integration: Integration, toSegments: bool): seq<string>
  {
    if toSegments then integration.subscribedSegments else integration.subscribedUserProperties
  }

  /** `subscribedIntegrationUserPropertyMap` (toSegments false, resolving
      against the user properties) or `subscribedIntegrationSegmentMap`
      (toSegments true, resolving against the segments): resource id to the
      names of the integrations subscribed to it. */
  function IntegrationMap(integrations: seq<Integration>, resources: seq<NamedResource>, toSegments: bool)
    : map<string, set<string>>
  {
    if integrations == [] then map[]
    else
      var integration := integrations[|integrations| - 1];
      Register(IntegrationMap(integrations[..|integrations| - 1], resources, toSegments),
               ResolvedIds(resources, SubscribedNames(integration, toSegments)), integration.name)
  }

  /** Integration `n` is registered under id `s` iff an integration named
      `n` has `s` among its resolved ids. */
  lemma {:induction false} IntegrationMapEntry(integrations: seq<Integration>, resources: seq<NamedResource>,
                                               toSegments: bool, s: string, n: string)
    ensures (s in IntegrationMap(integrations, resources, toSegments)
             && n in IntegrationMap(integrations, resources, toSegments)[s])
            <==> exists i :: 0 <= i < |integrations| && integrations[i].name == n
                             && s in ResolvedIds(resources, SubscribedNames(integrations[i], toSegments))
  {
    if integrations != [] {
      var init := integrations[..|integrations| - 1];
      var last := integrations[|integrations| - 1];
      IntegrationMapEntry(init, resources, toSegments, s, n);
      var ids := ResolvedIds(resources, SubscribedNames(last, toSegments));
      var m0 := IntegrationMap(init, resources, toSegments);
      var m := IntegrationMap(integrations, resources, toSegments);
      assert m == Register(m0, ids, last.name);
      RegisterSpec(m0, ids, last.name);
      if s in m0 && n in m0[s] {
        var i :| 0 <= i < |init| && init[i].name == n
                 && s in ResolvedIds(resources, SubscribedNames(init[i], toSegments));
        assert integrations[i] == init[i];
      }
      if s in ids && n == last.name {
        assert integrations[|init|] == last;
      }
      if exists i :: 0 <= i < |integrations| && integrations[i].name == n
                     && s in ResolvedIds(resources, SubscribedNames(integrations[i], toSegments)) {
        var i :| 0 <= i < |integrations| && integrations[i].name == n
                 && s in ResolvedIds(resources, SubscribedNames(integrations[i], toSegments));
        if i < |init| { assert init[i] == integrations[i]; }
      }
    }
  }

  /** End to end: integration `n` is registered under id `s` iff an
      integration named `n` subscribes to a name that resolves to `s`
      (the first resource with that name, with a non-empty id); names that
      resolve to nothing register nothing. */
  lemma IntegrationSubscription(integrations: seq<Integration>, resources: seq<NamedResource>,
                                toSegments: bool, s: string, n: string)
    ensures (s in IntegrationMap(integrations, resources, toSegments)
             && n in IntegrationMap(integrations, resources, toSegments)[s])
            <==> exists i, k :: 0 <= i < |integrations| && integrations[i].name == n
                                && 0 <= k < |SubscribedNames(integrations[i], toSegments)|
                                && Resolve(resources, SubscribedNames(integrations[i], toSegments)[k]) == Some(s)
  {
    IntegrationMapEntry(integrations, resources, toSegments, s, n);
    forall i | 0 <= i < |integrations| {
      ResolvedIdsSpec(resources, SubscribedNames(integrations[i], toSegments));
    }
  }

  lemma IntegrationMapSnoc(integrations: seq<Integration>, integration: Integration, resources: seq<NamedResource>,
                           toSegments: bool)
    ensures IntegrationMap(integrations + [integration], resources, toSegments)
            == Register(IntegrationMap(integrations, resources, toSegments),
                        ResolvedIds(resources, SubscribedNames(integration, toSegments)), integration.name)
  {
    assert (integrations + [integration])[..|integrations|] == integrations;
  }

  lemma ResolvedIdsSnoc(resources: seq<NamedResource>, names: seq<string>, name: string)
    ensures ResolvedIds(resources, names + [name])
            == ResolvedIds(resources, names) + (if Resolve(resources, name).Some? then [Resolve(resources, name).value] else [])
  {
    assert (names + [name])[..|names|] == names;
  }

  /** The `forEach` over one integration's subscribed names: resolve each
      name and register the integration under the id, skipping names that
      resolve to nothing. */
  method RegisterResolved(memo: map<string, set<string>>, resources: seq<NamedResource>, names: seq<string>,
                          value: string)
    returns (r: map<string, set<string>>)
    ensures r == Register(memo, ResolvedIds(resources, names), value)
  {
    r := memo;
    var k := 0;
    while k < |names|
      invariant 0 <= k <= |names|
      invariant r == Register(memo, ResolvedIds(resources, names[..k]), value)
    {
      assert names[..k + 1] == names[..k] + [names[k]];
      ResolvedIdsSnoc(resources, names[..k], names[k]);
      var resolved := Resolve(resources, names[k]);
      if resolved.Some? {
        var id := resolved.value;
        RegisterSnoc(memo, ResolvedIds(resources, names[..k]), id, value);
        var processFor := if id in r then r[id] else {};
        r := r[id := processFor + {value}];
        assert r == Register(memo, ResolvedIds(resources, names[..k]) + [id], value);
      } else {
        assert ResolvedIds(resources, names[..k + 1]) == ResolvedIds(resources, names[..k]);
      }
      k := k + 1;
    }
    assert names[..k] == names;
  }

  /** Both integration reducers: for each integration and each subscribed
      name, resolve the name and register the integration under the id. */
  method BuildIntegrationMap(integrations: seq<Integration>, resources: seq<NamedResource>, toSegments: bool)
    returns (memo: map<string, set<string>>)
    ensures memo == IntegrationMap(integrations, resources, toSegments)
  {
    memo := map[];
    var i := 0;
    while i < |integrations|
      invariant 0 <= i <= |integrations|
      invariant memo == IntegrationMap(integrations[..i], resources, toSegments)
    {
      var integration := integrations[i];
      assert integrations[..i + 1] == integrations[..i] + [integration];
      IntegrationMapSnoc(integrations[..i], integration, resources, toSegments);
      memo := RegisterResolved(memo, resources, SubscribedNames(integration, toSegments), integration.name);
      i := i + 1;
    }
    assert integrations[..i] == integrations;
  }
}
