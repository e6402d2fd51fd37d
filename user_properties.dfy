/** packages/backend-lib/src/userProperties.ts: definition validation and
    the resource projection, the listing of valid user properties, the
    typed accessor `assignmentAsString`, the combination of a user's
    assignments into one record keyed by property name, and the bulk
    upsert into the UserPropertyAssignment table. Schema validation and
    value parsing are collaborators passed in as functions. */
module UserProperties {
  import opened Wrappers
  import opened Json

  /** A stored UserProperty row; its definition is still raw JSON. */
  datatype UserPropertyRow = UserPropertyRow(
    id: string, workspaceId: string, name: string, definition: JsonValue, createdAt: int, updatedAt: int)

  /** The row with its definition validated (`EnrichedUserProperty`). */
  datatype EnrichedUserProperty<D> = EnrichedUserProperty(
    id: string, workspaceId: string, name: string, definition: D, createdAt: int, updatedAt: int)

  /** `UserPropertyResource`. */
  datatype UserPropertyResource<D> = UserPropertyResource(workspaceId: string, name: string, id: string, definition: D)

  /** `schemaValidate(definition, UserPropertyDefinition)`. */
  type Validate<D> = JsonValue -> Result<D, seq<string>>

  /** `enrichUserProperty`: the row with its validated definition, or the
      validation errors. */
  function EnrichUserProperty<D>(row: UserPropertyRow, validate: Validate<D>): (r: Result<EnrichedUserProperty<D>, seq<string>>)
    ensures validate(row.definition).Err? ==> r == Err(validate(row.definition).error)
    ensures validate(row.definition).Ok? ==>
              r == Ok(EnrichedUserProperty(row.id, row.workspaceId, row.name, validate(row.definition).value,
                                           row.createdAt, row.updatedAt))
  {
    match validate(row.definition)
    case Err(errors) => Err(errors)
    case Ok(definition) =>
      Ok(EnrichedUserProperty(row.id, row.workspaceId, row.name, definition, row.createdAt, row.updatedAt))
  }

  /** `toUserPropertyResource`: exactly workspace, name, id and validated
      definition; validation errors propagate unchanged. */
  function ToUserPropertyResource<D>(row: UserPropertyRow, validate: Validate<D>): (r: Result<UserPropertyResource<D>, seq<string>>)
    ensures r.Err? <==> validate(row.definition).Err?
    ensures r.Err? ==> r.error == validate(row.definition).error
    ensures r.Ok? ==> r.value == UserPropertyResource(row.workspaceId, row.name, row.id, validate(row.definition).value)
  {
    match EnrichUserProperty(row, validate)
    case Err(errors) => Err(errors)
    case Ok(p) => Ok(UserPropertyResource(p.workspaceId, p.name, p.id, p.definition))
  }

  // ---------------------------------------------------------------------
  // findAllUserProperties
  // ---------------------------------------------------------------------

  /** The enriched rows whose definitions validate, in input order. */
  function ValidProperties<D>(rows: seq<UserPropertyRow>, validate: Validate<D>): (r: seq<EnrichedUserProperty<D>>)
    ensures |r| <= |rows|
  {
    if rows == [] then []
    else Listed(rows[0], validate) + ValidProperties(rows[1..], validate)
  }

  /** What one row adds to the listing: its enriched property, or nothing. */
  function Listed<D>(row: UserPropertyRow, validate: Validate<D>): seq<EnrichedUserProperty<D>>
  {
    match EnrichUserProperty(row, validate)
    case Err(_) => []
    case Ok(p) => [p]
  }

  /** A property is listed iff some row of the workspace enriches to it. */
  lemma {:induction false} ValidPropertiesSpec<D>(rows: seq<UserPropertyRow>, validate: Validate<D>)
    ensures forall p :: p in ValidProperties(rows, validate)
              <==> exists i :: 0 <= i < |rows| && EnrichUserProperty(rows[i], validate) == Ok(p)
  {
    if rows != [] {
      var tail := rows[1..];
      ValidPropertiesSpec(tail, validate);
      assert forall i :: 0 <= i < |tail| ==> tail[i] == rows[i + 1];
      forall p | exists i :: 0 <= i < |rows| && EnrichUserProperty(rows[i], validate) == Ok(p)
        ensures p in ValidProperties(rows, validate)
      {
        var i :| 0 <= i < |rows| && EnrichUserProperty(rows[i], validate) == Ok(p);
        if i > 0 {
          assert EnrichUserProperty(tail[i - 1], validate) == Ok(p);
        }
      }
    }
  }

  /** A single row contributes its enriched property, or nothing. */
  lemma ValidPropertiesOfRow<D>(row: UserPropertyRow, validate: Validate<D>)
    ensures ValidProperties([row], validate)
            == match EnrichUserProperty(row, validate) case Ok(p) => [p] case Err(_) => []
  {
    assert [row][1..] == [];
  }

  /** Listing distributes over concatenation: the rows are listed in input
      order, each valid row exactly once. */
  lemma {:induction false} ValidPropertiesAppend<D>(a: seq<UserPropertyRow>, b: seq<UserPropertyRow>, validate: Validate<D>)
    ensures ValidProperties(a + b, validate) == ValidProperties(a, validate) + ValidProperties(b, validate)
  {
    if a == [] {
      assert a + b == b;
    } else {
      ValidPropertiesAppend(a[1..], b, validate);
      ValidPropertiesConsAppend(a, b, validate);
      var x := Listed(a[0], validate);
      var y := ValidProperties(a[1..], validate);
      var z := ValidProperties(b, validate);
      assert x + (y + z) == (x + y) + z;
    }
  }

  /** The first row of `a + b` is listed ahead of the rest of `a` and `b`. */
  lemma ValidPropertiesConsAppend<D>(a: seq<UserPropertyRow>, b: seq<UserPropertyRow>, validate: Validate<D>)
    requires a != []
    ensures ValidProperties(a + b, validate) == Listed(a[0], validate) + ValidProperties(a[1..] + b, validate)
  {
    assert (a + b)[1..] == a[1..] + b;
  }

  /** `findAllUserProperties` over the rows of the workspace: invalid
      definitions are skipped, the rest pushed in order. */
  method FindAllUserProperties<D>(userProperties: seq<UserPropertyRow>, validate: Validate<D>)
    returns (enriched: seq<EnrichedUserProperty<D>>)
    ensures enriched == ValidProperties(userProperties, validate)
  {
    enriched := [];
    var i := 0;
    while i < |userProperties|
      invariant 0 <= i <= |userProperties|
      invariant enriched == ValidProperties(userProperties[..i], validate)
    {
      assert userProperties[..i + 1] == userProperties[..i] + [userProperties[i]];
      ValidPropertiesAppend(userProperties[..i], [userProperties[i]], validate);
      ValidPropertiesOfRow(userProperties[i], validate);
      var result := EnrichUserProperty(userProperties[i], validate);
      if result.Ok? {
        enriched := enriched + [result.value];
      }
      i := i + 1;
    }
    assert userProperties[..i] == userProperties;
  }

  // ---------------------------------------------------------------------
  // assignmentAsString
  // ---------------------------------------------------------------------

  /** `assignmentAsString`: the assignment when it is a string, else null. */
  function AssignmentAsString(assignments: map<string, JsonValue>, key: string): (r: Option<string>)
    ensures forall s :: r == Some(s) <==> key in assignments && assignments[key] == JString(s)
    ensures r.None? <==> key !in assignments || !assignments[key].JString?
  {
    if key in assignments && assignments[key].JString? then Some(assignments[key].s) else None
  }

  // ---------------------------------------------------------------------
  // findAllUserPropertyAssignments
  // ---------------------------------------------------------------------

  /** A user property together with the user's stored assignment values. */
  datatype PropertyWithAssignments = PropertyWithAssignments(
    workspaceId: string, name: string, definition: JsonValue, assignmentValues: seq<string>)

  /** `parseUserProperty(definition, value)`. */
  type Parse<-D> = (D, string) -> Result<JsonValue, string>

  /** `if (userPropertiesFilter?.length)`: a name filter with at least one name. */
  predicate FilterApplies(filter: Option<seq<string>>)
  {
    filter.Some? && |filter.value| > 0
  }

  predicate Selected(p: PropertyWithAssignments, workspaceId: string, filter: Option<seq<string>>)
  {
    p.workspaceId == workspaceId && (FilterApplies(filter) ==> p.name in filter.value)
  }

  /** The rows `findMany` returns, in table order. */
  function SelectProperties(rows: seq<PropertyWithAssignments>, workspaceId: string, filter: Option<seq<string>>)
    : (r: seq<PropertyWithAssignments>)
    ensures forall p :: p in r <==> p in rows && Selected(p, workspaceId, filter)
  {
    if rows == [] then []
    else
      var last := rows[|rows| - 1];
      assert rows == rows[..|rows| - 1] + [last];
      SelectProperties(rows[..|rows| - 1], workspaceId, filter) + (if Selected(last, workspaceId, filter) then [last] else [])
  }

  /** The name filter takes effect only when it names something: an
      absent or empty filter selects the whole workspace. */
  lemma EmptyFilterSelectsWorkspace(rows: seq<PropertyWithAssignments>, workspaceId: string, filter: Option<seq<string>>)
    requires filter.None? || filter.value == []
    ensures forall p :: p in SelectProperties(rows, workspaceId, filter) <==> p in rows && p.workspaceId == workspaceId
  {
  }

  /** The (name, parsed value) pairs a list of assignment values yields,
      skipping values that do not parse. */
  function ParsedValues<D>(name: string, definition: D, values: seq<string>, parse: Parse<D>)
    : seq<(string, JsonValue)>
  {
    if values == [] then []
    else
      var parsed := parse(definition, values[|values| - 1]);
      ParsedValues(name, definition, values[..|values| - 1], parse) + (if parsed.Ok? then [(name, parsed.value)] else [])
  }

  /** The pairs one property contributes: none when its definition does
      not validate. */
  function PropertyEntries<D>(p: PropertyWithAssignments, validate: Validate<D>, parse: Parse<D>): seq<(string, JsonValue)>
  {
    match validate(p.definition)
    case Err(_) => []
    case Ok(definition) => ParsedValues(p.name, definition, p.assignmentValues, parse)
  }

  /** Every pair in visiting order. */
  function Entries<D>(props: seq<PropertyWithAssignments>, validate: Validate<D>, parse: Parse<D>): seq<(string, JsonValue)>
  {
    if props == [] then []
    else Entries(props[..|props| - 1], validate, parse) + PropertyEntries(props[|props| - 1], validate, parse)
  }

  /** `combinedAssignments[name] = value` for each pair in order. */
  function Combine(entries: seq<(string, JsonValue)>): map<string, JsonValue>
  {
    if entries == [] then map[]
    else Combine(entries[..|entries| - 1])[entries[|entries| - 1].0 := entries[|entries| - 1].1]
  }

  /** The keys are exactly the names that occur, and each holds the value
      of the last pair with that name. */
  lemma {:induction false} CombineLastWins(entries: seq<(string, JsonValue)>)
    ensures forall name :: name in Combine(entries) <==> exists i :: 0 <= i < |entries| && entries[i].0 == name
    ensures forall name :: name in Combine(entries) ==>
              exists i :: 0 <= i < |entries| && entries[i] == (name, Combine(entries)[name])
                          && forall j :: i < j < |entries| ==> entries[j].0 != name
  {
    if entries != [] {
      var init := entries[..|entries| - 1];
      CombineLastWins(init);
      assert forall i :: 0 <= i < |init| ==> init[i] == entries[i];
      var last := entries[|entries| - 1];
      forall name | name in Combine(entries)
        ensures exists i :: 0 <= i < |entries| && entries[i] == (name, Combine(entries)[name])
                            && forall j :: i < j < |entries| ==> entries[j].0 != name
      {
        if name == last.0 {
          assert entries[|entries| - 1] == (name, Combine(entries)[name]);
        } else {
          var i :| 0 <= i < |init| && init[i] == (name, Combine(init)[name])
                   && forall j :: i < j < |init| ==> init[j].0 != name;
          assert entries[i] == (name, Combine(entries)[name]);
        }
      }
    }
  }

  /** A pair is produced iff its value parses from one of the assignment
      values of a property with a valid definition. */
  lemma {:induction false} ParsedValuesSpec<D>(name: string, definition: D, values: seq<string>, parse: Parse<D>)
    ensures forall e :: e in ParsedValues(name, definition, values, parse)
              <==> e.0 == name && exists k :: 0 <= k < |values| && parse(definition, values[k]) == Ok(e.1)
  {
    if values != [] {
      var init := values[..|values| - 1];
      ParsedValuesSpec(name, definition, init, parse);
      assert forall k :: 0 <= k < |init| ==> init[k] == values[k];
    }
  }

  lemma PropertyEntriesSpec<D>(p: PropertyWithAssignments, validate: Validate<D>, parse: Parse<D>)
    ensures forall e :: e in PropertyEntries(p, validate, parse)
              <==> validate(p.definition).Ok? && e.0 == p.name
                   && exists k :: 0 <= k < |p.assignmentValues| && parse(validate(p.definition).value, p.assignmentValues[k]) == Ok(e.1)
  {
    if validate(p.definition).Ok? {
      ParsedValuesSpec(p.name, validate(p.definition).value, p.assignmentValues, parse);
    }
  }

  lemma {:induction false} EntriesSpec<D>(props: seq<PropertyWithAssignments>, validate: Validate<D>, parse: Parse<D>)
    ensures forall e :: e in Entries(props, validate, parse)
              <==> exists i :: 0 <= i < |props| && e in PropertyEntries(props[i], validate, parse)
  {
    if props != [] {
      var init := props[..|props| - 1];
      EntriesSpec(init, validate, parse);
      assert forall i :: 0 <= i < |init| ==> init[i] == props[i];
    }
  }

  /** The record `findAllUserPropertyAssignments` returns. */
  function CombinedAssignments<D>(rows: seq<PropertyWithAssignments>, workspaceId: string, filter: Option<seq<string>>,
                                  validate: Validate<D>, parse: Parse<D>): map<string, JsonValue>
  {
    Combine(Entries(SelectProperties(rows, workspaceId, filter), validate, parse))
  }

  /** A selected property of that name with a valid definition and an
      assignment value that parses. */
  predicate Contributes<D>(p: PropertyWithAssignments, workspaceId: string, filter: Option<seq<string>>,
                           validate: Validate<D>, parse: Parse<D>, name: string)
  {
    Selected(p, workspaceId, filter) && p.name == name && validate(p.definition).Ok?
    && exists k :: 0 <= k < |p.assignmentValues| && parse(validate(p.definition).value, p.assignmentValues[k]).Ok?
  }

  lemma CombinedKeyHasSource<D>(rows: seq<PropertyWithAssignments>, workspaceId: string, filter: Option<seq<string>>,
                                validate: Validate<D>, parse: Parse<D>, name: string)
    requires name in CombinedAssignments(rows, workspaceId, filter, validate, parse)
    ensures exists p :: p in rows && Contributes(p, workspaceId, filter, validate, parse, name)
  {
    var props := SelectProperties(rows, workspaceId, filter);
    var entries := Entries(props, validate, parse);
    CombineLastWins(entries);
    EntriesSpec(props, validate, parse);
    var i :| 0 <= i < |entries| && entries[i].0 == name;
    assert entries[i] in entries;
    var j :| 0 <= j < |props| && entries[i] in PropertyEntries(props[j], validate, parse);
    PropertyEntriesSpec(props[j], validate, parse);
    assert props[j] in props;
    assert Contributes(props[j], workspaceId, filter, validate, parse, name);
  }

  lemma SourceGivesCombinedKey<D>(rows: seq<PropertyWithAssignments>, workspaceId: string, filter: Option<seq<string>>,
                                  validate: Validate<D>, parse: Parse<D>, name: string, p: PropertyWithAssignments)
    requires p in rows && Contributes(p, workspaceId, filter, validate, parse, name)
    ensures name in CombinedAssignments(rows, workspaceId, filter, validate, parse)
  {
    var props := SelectProperties(rows, workspaceId, filter);
    var entries := Entries(props, validate, parse);
    var k :| 0 <= k < |p.assignmentValues| && parse(validate(p.definition).value, p.assignmentValues[k]).Ok?;
    assert p in props;
    var j :| 0 <= j < |props| && props[j] == p;
    var e := (name, parse(validate(p.definition).value, p.assignmentValues[k]).value);
    PropertyEntriesSpec(p, validate, parse);
    assert e in PropertyEntries(props[j], validate, parse);
    EntriesSpec(props, validate, parse);
    assert e in entries;
    var i :| 0 <= i < |entries| && entries[i] == e;
    CombineLastWins(entries);
  }

  /** A name is a key iff a selected property of that name has a valid
      definition and an assignment value that parses; invalid definitions
      and unparseable values contribute nothing. */
  lemma CombinedAssignmentKeys<D>(rows: seq<PropertyWithAssignments>, workspaceId: string, filter: Option<seq<string>>,
                                  validate: Validate<D>, parse: Parse<D>, name: string)
    ensures name in CombinedAssignments(rows, workspaceId, filter, validate, parse)
            <==> exists p :: p in rows && Contributes(p, workspaceId, filter, validate, parse, name)
  {
    if name in CombinedAssignments(rows, workspaceId, filter, validate, parse) {
      CombinedKeyHasSource(rows, workspaceId, filter, validate, parse, name);
    }
    if exists p :: p in rows && Contributes(p, workspaceId, filter, validate, parse, name) {
      var p :| p in rows && Contributes(p, workspaceId, filter, validate, parse, name);
      SourceGivesCombinedKey(rows, workspaceId, filter, validate, parse, name, p);
    }
  }

  lemma EntriesSnoc<D>(props: seq<PropertyWithAssignments>, p: PropertyWithAssignments, validate: Validate<D>, parse: Parse<D>)
    ensures Entries(props + [p], validate, parse) == Entries(props, validate, parse) + PropertyEntries(p, validate, parse)
  {
    assert (props + [p])[..|props|] == props;
  }

  lemma CombineSnoc(entries: seq<(string, JsonValue)>, e: (string, JsonValue))
    ensures Combine(entries + [e]) == Combine(entries)[e.0 := e.1]
  {
    assert (entries + [e])[..|entries|] == entries;
  }

  /** The inner loop of `findAllUserPropertyAssignments`: each assignment
      value of one property that parses is written under its name. */
  method WriteParsedAssignments<D>(combined: map<string, JsonValue>, ghost entries: seq<(string, JsonValue)>,
                                   name: string, definition: D, assignments: seq<string>, parse: Parse<D>)
    returns (combinedAssignments: map<string, JsonValue>)
    requires combined == Combine(entries)
    ensures combinedAssignments == Combine(entries + ParsedValues(name, definition, assignments, parse))
  {
    combinedAssignments := combined;
    assert entries + ParsedValues(name, definition, assignments[..0], parse) == entries;
    var k := 0;
    while k < |assignments|
      invariant 0 <= k <= |assignments|
      invariant combinedAssignments == Combine(entries + ParsedValues(name, definition, assignments[..k], parse))
    {
      assert assignments[..k + 1][..k] == assignments[..k];
      var parsed := parse(definition, assignments[k]);
      ghost var sofar := entries + ParsedValues(name, definition, assignments[..k], parse);
      if parsed.Ok? {
        CombineSnoc(sofar, (name, parsed.value));
        assert sofar + [(name, parsed.value)] == entries + ParsedValues(name, definition, assignments[..k + 1], parse);
        combinedAssignments := combinedAssignments[name := parsed.value];
      } else {
        assert sofar == entries + ParsedValues(name, definition, assignments[..k + 1], parse);
      }
      k := k + 1;
    }
    assert assignments[..k] == assignments;
  }

  /** `findAllUserPropertyAssignments`: for each selected property with a
      valid definition, each assignment that parses is written under the
      property's name, later writes replacing earlier ones. */
  method FindAllUserPropertyAssignments<D>(rows: seq<PropertyWithAssignments>, workspaceId: string,
                                           filter: Option<seq<string>>, validate: Validate<D>, parse: Parse<D>)
    returns (combinedAssignments: map<string, JsonValue>)
    ensures combinedAssignments == CombinedAssignments(rows, workspaceId, filter, validate, parse)
  {
    var userProperties := SelectProperties(rows, workspaceId, filter);
    combinedAssignments := map[];
    var i := 0;
    while i < |userProperties|
      invariant 0 <= i <= |userProperties|
      invariant combinedAssignments == Combine(Entries(userProperties[..i], validate, parse))
    {
      var userProperty := userProperties[i];
      assert userProperties[..i + 1] == userProperties[..i] + [userProperty];
      EntriesSnoc(userProperties[..i], userProperty, validate, parse);
      var definitionResult := validate(userProperty.definition);
      if definitionResult.Ok? {
        combinedAssignments := WriteParsedAssignments(combinedAssignments, Entries(userProperties[..i], validate, parse),
                                                      userProperty.name, definitionResult.value,
                                                      userProperty.assignmentValues, parse);
      } else {
        assert Entries(userProperties[..i + 1], validate, parse) == Entries(userProperties[..i], validate, parse);
      }
      i := i + 1;
    }
    assert userProperties[..i] == userProperties;
  }

  // ---------------------------------------------------------------------
  // upsertBulkUserPropertyAssignments
  // ---------------------------------------------------------------------

  datatype AssignmentKey = AssignmentKey(workspaceId: string, userId: string, userPropertyId: string)

  datatype AssignmentInput = AssignmentInput(workspaceId: string, userId: string, userPropertyId: string, value: string)

  function KeyOf(d: AssignmentInput): AssignmentKey
  {
    AssignmentKey(d.workspaceId, d.userId, d.userPropertyId)
  }

  /** Two input rows for the same key: PostgreSQL refuses to let one
      `ON CONFLICT DO UPDATE` statement affect a row twice. */
  predicate HasDuplicateKeys(data: seq<AssignmentInput>)
  {
    exists i, j :: 0 <= i < j < |data| && KeyOf(data[i]) == KeyOf(data[j])
  }

  /** The table after the statement succeeds: each input row stored under
      its key, in order. */
  function Upserted(values: map<AssignmentKey, string>, data: seq<AssignmentInput>): map<AssignmentKey, string>
  {
    if data == [] then values
    else Upserted(values, data[..|data| - 1])[KeyOf(data[|data| - 1]) := data[|data| - 1].value]
  }

  /** Without duplicate keys, every input key holds its input value
      afterwards and every other row is unchanged. */
  lemma {:induction false} UpsertedSpec(values: map<AssignmentKey, string>, data: seq<AssignmentInput>)
    requires !HasDuplicateKeys(data)
    ensures forall i :: 0 <= i < |data| ==> KeyOf(data[i]) in Upserted(values, data)
                                            && Upserted(values, data)[KeyOf(data[i])] == data[i].value
    ensures forall k :: (forall i :: 0 <= i < |data| ==> KeyOf(data[i]) != k) ==>
              (k in Upserted(values, data) <==> k in values)
              && (k in values ==> Upserted(values, data)[k] == values[k])
  {
    if data != [] {
      var init := data[..|data| - 1];
      assert forall i :: 0 <= i < |init| ==> init[i] == data[i];
      assert !HasDuplicateKeys(init);
      UpsertedSpec(values, init);
      forall i | 0 <= i < |data| - 1 ensures KeyOf(data[i]) != KeyOf(data[|data| - 1]) {
        assert !(KeyOf(data[i]) == KeyOf(data[|data| - 1]));
      }
      assert forall i :: 0 <= i < |init| ==> init[i] == data[i];
    }
  }

  datatype DbError = CardinalityViolation | ForeignKeyViolation

  /** The UserPropertyAssignment table and the ids its foreign keys
      reference. */
  class AssignmentTable {
    var values: map<AssignmentKey, string>
    var workspaces: set<string>
    var userPropertyIds: set<string>

    constructor(workspaces: set<string>, userPropertyIds: set<string>)
      ensures this.values == map[] && this.workspaces == workspaces && this.userPropertyIds == userPropertyIds
    {
      this.values := map[];
      this.workspaces := workspaces;
      this.userPropertyIds := userPropertyIds;
    }

    /** A row whose workspace or user property does not exist. */
    predicate ViolatesForeignKey(data: seq<AssignmentInput>)
      reads this
    {
      exists i :: 0 <= i < |data| && (data[i].workspaceId !in workspaces || data[i].userPropertyId !in userPropertyIds)
    }

    /** The single INSERT ... ON CONFLICT DO UPDATE statement, which runs
        atomically: it fails as a whole on a key repeated in the input
        (before any foreign key is checked) or on a foreign-key violation. */
    method ExecuteUpsert(data: seq<AssignmentInput>) returns (error: Option<DbError>)
      modifies this
      ensures workspaces == old(workspaces) && userPropertyIds == old(userPropertyIds)
      ensures HasDuplicateKeys(data) ==> error == Some(CardinalityViolation) && values == old(values)
      ensures !HasDuplicateKeys(data) && old(ViolatesForeignKey(data)) ==>
                error == Some(ForeignKeyViolation) && values == old(values)
      ensures !HasDuplicateKeys(data) && !old(ViolatesForeignKey(data)) ==>
                error.None? && values == Upserted(old(values), data)
    {
      if HasDuplicateKeys(data) {
        return Some(CardinalityViolation);
      }
      if ViolatesForeignKey(data) {
        return Some(ForeignKeyViolation);
      }
      var i := 0;
      while i < |data|
        invariant 0 <= i <= |data|
        invariant workspaces == old(workspaces) && userPropertyIds == old(userPropertyIds)
        invariant values == Upserted(old(values), data[..i])
      {
        assert data[..i + 1][..i] == data[..i];
        values := values[KeyOf(data[i]) := data[i].value];
        i := i + 1;
      }
      assert data[..i] == data;
      error := None;
    }

    /** `upsertBulkUserPropertyAssignments`: nothing for an empty input;
        otherwise the statement runs, a foreign-key violation (P2003) is
        swallowed and any other error is rethrown. */
    method UpsertBulk(data: seq<AssignmentInput>) returns (thrown: Option<DbError>)
      modifies this
      ensures workspaces == old(workspaces) && userPropertyIds == old(userPropertyIds)
      ensures |data| == 0 ==> thrown.None? && values == old(values)
      ensures HasDuplicateKeys(data) ==> thrown == Some(CardinalityViolation) && values == old(values)
      ensures !HasDuplicateKeys(data) && old(ViolatesForeignKey(data)) ==> thrown.None? && values == old(values)
      ensures !HasDuplicateKeys(data) && !old(ViolatesForeignKey(data)) ==> thrown.None? && values == Upserted(old(values), data)
    {
      if |data| == 0 {
        return None;
      }
      var error := ExecuteUpsert(data);
      if error.Some? && error.value != ForeignKeyViolation {
        return error;
      }
      return None;
    }
  }
}
