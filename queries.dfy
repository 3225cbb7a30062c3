/**
 * Query templates and explainers: the fixed pattern table (`JaquelExamples`),
 * the query skeletons, the English filter explanation, the step-by-step
 * breakdown of a query and the keyword-driven fix suggestions (`QueryDebugger`).
 */
module Queries {
  import opened Text
  import opened Json
  import Validators

  // ---------------------------------------------------------------- BASIC_PATTERNS

  datatype Pattern = Pattern(template: string, description: string, explanation: string)

  datatype NamedPattern = NamedPattern(name: string, pattern: Pattern)

  const GetAllInstancesPattern := Pattern(
    "{\n    \"EntityName\": {},\n    \"$options\": {\n        \"$rowlimit\": 5\n    }\n}",
    "Get all instances (limited to 5)",
    "Empty {} means no filter. $rowlimit prevents large result sets.")

  const GetByIdPattern := Pattern(
    "{\"EntityName\": 123}",
    "Get instance by ID (shorthand)",
    "Full: {\"EntityName\": {\"id\": 123}}")

  const GetByNamePattern := Pattern(
    "{\n    \"EntityName\": {\n        \"name\": \"SearchName\"\n    },\n    \"$attributes\": {\n        \"id\": 1,\n        \"name\": 1\n    }\n}",
    "Get instances by name",
    "1 means include attribute")

  const CaseInsensitiveSearchPattern := Pattern(
    "{\n    \"EntityName\": {\n        \"name\": {\n            \"$like\": \"Search*\",\n            \"$options\": \"i\"\n        }\n    }\n}",
    "Case-insensitive wildcard search",
    "$like uses * and ? wildcards. $options: \'i\' = case-insensitive")

  const TimeRangePattern := Pattern(
    "{\n    \"AoMeasurement\": {\n        \"measurement_begin\": {\n            \"$between\": [\n                \"2023-01-01T00:00:00Z\",\n                \"2023-12-31T23:59:59Z\"\n            ]\n        }\n    }\n}",
    "Query time range",
    "Use ISO 8601 or ODS time format")

  const InnerJoinPattern := Pattern(
    "{\n    \"AoMeasurementQuantity\": {},\n    \"$attributes\": {\n        \"name\": 1,\n        \"unit.name\": 1,\n        \"quantity.name\": 1\n    }\n}",
    "Inner join with related entities",
    "Use dot notation. Related record must exist.")

  const OuterJoinPattern := Pattern(
    "{\n    \"AoMeasurementQuantity\": {},\n    \"$attributes\": {\n        \"name\": 1,\n        \"unit:OUTER.name\": 1,\n        \"quantity:OUTER.name\": 1\n    }\n}",
    "Outer join",
    "Use :OUTER suffix. Handles sparse data.")

  const AggregatesPattern := Pattern(
    "{\n    \"AoUnit\": {},\n    \"$attributes\": {\n        \"factor\": {\n            \"$min\": 1,\n            \"$max\": 1,\n            \"$avg\": 1\n        },\n        \"description\": {\n            \"$distinct\": 1,\n            \"$dcount\": 1\n        }\n    }\n}",
    "Aggregate functions",
    "$min/$max/$avg for numeric. $distinct for unique values.")

  /** `BASIC_PATTERNS`, in declaration order. */
  const BasicPatterns: seq<NamedPattern> := [
    NamedPattern("get_all_instances", GetAllInstancesPattern),
    NamedPattern("get_by_id", GetByIdPattern),
    NamedPattern("get_by_name", GetByNamePattern),
    NamedPattern("case_insensitive_search", CaseInsensitiveSearchPattern),
    NamedPattern("time_range", TimeRangePattern),
    NamedPattern("inner_join", InnerJoinPattern),
    NamedPattern("outer_join", OuterJoinPattern),
    NamedPattern("aggregates", AggregatesPattern)
  ]

  /** What `get_pattern` returns: the stored entry or an `{"error": ...}` record. */
  datatype PatternLookup = PatternFound(pattern: Pattern) | UnknownPattern(error: string)

  /** The first entry with the given name. */
  function FindPattern(entries: seq<NamedPattern>, name: string): (r: Option<Pattern>)
    ensures r.None? <==> forall i :: 0 <= i < |entries| ==> entries[i].name != name
  {
    if entries == [] then None
    else if entries[0].name == name then Some(entries[0].pattern)
    else
      assert forall i :: 1 <= i < |entries| ==> entries[i] == entries[1..][i - 1];
      FindPattern(entries[1..], name)
  }

  /** `JaquelExamples.get_pattern` */
  function GetPattern(name: string): (r: PatternLookup)
    ensures r.UnknownPattern? <==> name !in ListPatterns()
    ensures r.UnknownPattern? ==> r.error == "Unknown pattern: " + name
  {
    match FindPattern(BasicPatterns, name)
    case Some(p) => PatternFound(p)
    case None => UnknownPattern("Unknown pattern: " + name)
  }

  /** `JaquelExamples.list_patterns`: the table's keys in declaration order. */
  function ListPatterns(): (r: seq<string>)
    ensures |r| == |BasicPatterns|
    ensures forall i :: 0 <= i < |r| ==> r[i] == BasicPatterns[i].name
  {
    PatternNames(BasicPatterns)
  }

  function PatternNames(entries: seq<NamedPattern>): (r: seq<string>)
    ensures |r| == |entries|
    ensures forall i :: 0 <= i < |r| ==> r[i] == entries[i].name
  {
    if entries == [] then [] else [entries[0].name] + PatternNames(entries[1..])
  }

  lemma {:induction false} FindDistinct(entries: seq<NamedPattern>, i: nat)
    requires i < |entries|
    requires forall j :: 0 <= j < i ==> entries[j].name != entries[i].name
    ensures FindPattern(entries, entries[i].name) == Some(entries[i].pattern)
  {
    if i > 0 {
      FindDistinct(entries[1..], i - 1);
    }
  }

  /** The eight pattern names, each listed once. */
  lemma {:induction false} PatternNamesDistinct()
    ensures |BasicPatterns| == 8
    ensures forall i, j :: 0 <= i < j < |BasicPatterns| ==> BasicPatterns[i].name != BasicPatterns[j].name
  {
  }

  /** Every listed name finds its own entry. */
  lemma {:induction false} GetPatternListed(i: nat)
    requires i < |BasicPatterns|
    ensures GetPattern(ListPatterns()[i]) == PatternFound(BasicPatterns[i].pattern)
  {
    PatternNamesDistinct();
    FindDistinct(BasicPatterns, i);
  }

  // ---------------------------------------------------------------- generate_query_skeleton

  const DefaultOperation := "get_all"

  const SkeletonOperations: seq<string> := ["get_all", "get_by_id", "get_by_name", "search_and_select"]

  /** The value each skeleton puts under the entity name. */
  function SkeletonFilter(operation: string): Value {
    if operation == "get_all" then Object([])
    else if operation == "get_by_id" then Int(123)
    else if operation == "get_by_name" then Object([Member("name", Str("SearchName"))])
    else Object([Member("name", Object([Member("$like", Str("Search*"))]))])
  }

  /** The members of a skeleton's dict display after the entity, in order. */
  function SkeletonDirectives(operation: string): seq<Member> {
    if operation == "get_all" then
      [Member("$attributes", Object([Member("id", Int(1)), Member("name", Int(1))])),
       Member("$options", Object([Member("$rowlimit", Int(5))]))]
    else if operation == "get_by_id" || operation == "get_by_name" then
      [Member("$attributes", Object([Member("*", Int(1))]))]
    else
      [Member("$attributes", Object([Member("id", Int(1)), Member("name", Int(1))])),
       Member("$orderby", Object([Member("name", Int(1))])),
       Member("$options", Object([Member("$rowlimit", Int(10))]))]
  }

  /** `JaquelExamples.generate_query_skeleton` */
  function GenerateQuerySkeleton(entity: string, operation: string): (r: Value)
    ensures r.Object?
    ensures operation !in SkeletonOperations ==>
              r == Object([Member("error", Str("Unknown operation: " + operation))])
  {
    if operation in SkeletonOperations
    then Object(DictOf([Member(entity, SkeletonFilter(operation))] + SkeletonDirectives(operation)))
    else Object([Member("error", Str("Unknown operation: " + operation))])
  }

  /** An entity name that is not `$`-prefixed differs from every directive key. */
  lemma {:induction false} SkeletonKeysDistinct(entity: string, operation: string)
    requires Validators.IsEntityKey(entity)
    ensures DistinctKeys([Member(entity, SkeletonFilter(operation))] + SkeletonDirectives(operation))
  {
    var ds := SkeletonDirectives(operation);
    forall i | 0 <= i < |ds| ensures ds[i].key != entity {
      StartsWithChar(ds[i].key, '$');
      StartsWithChar(entity, '$');
    }
  }

  /** For an entity name, the skeleton's first member maps it to the operation's fixed filter. */
  lemma {:induction false} SkeletonShape(entity: string, operation: string)
    requires Validators.IsEntityKey(entity) && operation in SkeletonOperations
    ensures GenerateQuerySkeleton(entity, operation).members
            == [Member(entity, SkeletonFilter(operation))] + SkeletonDirectives(operation)
    ensures Get(GenerateQuerySkeleton(entity, operation).members, entity) == Some(SkeletonFilter(operation))
  {
    SkeletonKeysDistinct(entity, operation);
    DictOfDistinct([Member(entity, SkeletonFilter(operation))] + SkeletonDirectives(operation));
  }

  /** The default skeleton limits the result to five rows. */
  lemma {:induction false} DefaultSkeletonRowlimit(entity: string)
    requires Validators.IsEntityKey(entity)
    ensures var opts := Get(GenerateQuerySkeleton(entity, DefaultOperation).members, "$options");
            opts == Some(Object([Member("$rowlimit", Int(5))]))
  {
    SkeletonShape(entity, DefaultOperation);
    var ms := GenerateQuerySkeleton(entity, DefaultOperation).members;
    StartsWithChar(entity, '$');
    StartsWithChar("$options", '$');
    assert ms[0].key != "$options";
    assert ms[1..] == [ms[1], ms[2]];
    assert ms[1].key == "$attributes" && ms[2].key == "$options";
    assert Get(ms[2..], "$options") == Some(ms[2].value);
    assert Get(ms[1..], "$options") == Some(ms[2].value);
  }

  /** A query made of an entity followed by dict-valued members has no directive errors. */
  lemma {:induction false} DirectivesAreDicts(ms: seq<Member>)
    requires ms != [] && Validators.IsEntityKey(ms[0].key)
    requires forall i :: 1 <= i < |ms| ==> ms[i].value.Object?
    ensures Validators.DirectiveErrors(ms) == []
  {
    forall key | key in {"$attributes", "$orderby", "$groupby"}
      ensures HasKey(ms, key) ==> GetOrNull(ms, key).Object?
    {
      if HasKey(ms, key) {
        GetFirst(ms, key);
        StartsWithChar(ms[0].key, '$');
      }
    }
  }

  /** The `$options` of the skeletons, when present, hold an integer `$rowlimit` only. */
  lemma {:induction false} SkeletonOptions(entity: string, operation: string)
    requires Validators.IsEntityKey(entity) && operation in SkeletonOperations
    ensures Validators.OptionsErrors(GenerateQuerySkeleton(entity, operation).members) == []
  {
    SkeletonShape(entity, operation);
    var ms := GenerateQuerySkeleton(entity, operation).members;
    StartsWithChar(entity, '$');
    StartsWithChar("$options", '$');
    assert ms[0].key != "$options";
    var rest := ms[1..];
    assert "$attributes"[2] != "$options"[2];
    assert Get(ms, "$options") == Get(rest, "$options");
    assert Get(rest, "$options") == Get(rest[1..], "$options");
    if operation == "get_all" || operation == "search_and_select" {
      var n := if operation == "get_all" then 5 else 10;
      var tail := rest[1..];
      if operation == "search_and_select" {
        assert "$orderby"[2] != "$options"[2];
        assert Get(tail, "$options") == Get(tail[1..], "$options");
        tail := tail[1..];
      }
      assert Get(tail, "$options") == Some(Object([Member("$rowlimit", Int(n))]));
      var opts := [Member("$rowlimit", Int(n))];
      assert "$rowlimit"[4] != "$rowskip"[4];
      assert GetOrNull(opts, "$rowlimit") == Int(n);
      assert GetOrNull(opts, "$rowskip") == Null;
    } else {
      assert rest[1..] == [];
    }
  }

  /** Every skeleton of a non-empty, non-`$` entity name passes `validate_query`. */
  lemma {:induction false} SkeletonsValidate(entity: string, operation: string)
    requires entity != "" && Validators.IsEntityKey(entity) && operation in SkeletonOperations
    ensures Validators.Validation(GenerateQuerySkeleton(entity, operation)).valid
  {
    SkeletonShape(entity, operation);
    var ms := GenerateQuerySkeleton(entity, operation).members;
    assert Validators.FirstEntityMember(ms) == Some(ms[0]);
    assert Validators.EntityName(ms) == Some(entity);
    var ds := SkeletonDirectives(operation);
    assert forall i :: 1 <= i < |ms| ==> ms[i] == ds[i - 1];
    DirectivesAreDicts(ms);
    SkeletonOptions(entity, operation);
  }

  // ---------------------------------------------------------------- explain_filter

  /** The operators `explain_filter` turns into a clause. */
  const ExplainedOperators: set<string> :=
    {"$eq", "$neq", "$like", "$gt", "$lt", "$between", "$in", "$null", "$notnull"}

  /** `value[index]` inside an f-string, with the error Python raises for a value that has no such element. */
  function Subscript(value: Value, index: nat): (r: Result<string>)
    ensures r.Ok? <==> (value.List? && index < |value.items|) || (value.Str? && index < |value.s|)
  {
    match value
    case List(items) =>
      if index < |items| then Ok(ToStr(items[index])) else Err(PyError("IndexError", "list index out of range"))
    case Str(s) =>
      if index < |s| then Ok([s[index]]) else Err(PyError("IndexError", "string index out of range"))
    case Object(_) => Err(PyError("KeyError", IntToString(index)))
    case _ => Err(PyError("TypeError", "'" + TypeName(value) + "' object is not subscriptable"))
  }

  /** The clause one `(field, op, value)` contributes: none for an operator outside the list. */
  function OperatorClause(field: string, op: string, value: Value): (r: Result<seq<string>>)
    ensures op !in ExplainedOperators ==> r == Ok([])
    ensures op in ExplainedOperators && r.Ok? ==> |r.value| == 1
    ensures r.Err? <==> op == "$between" && !((value.List? && |value.items| >= 2) || (value.Str? && |value.s| >= 2))
  {
    if op == "$eq" then Ok([field + " equals " + ToStr(value)])
    else if op == "$neq" then Ok([field + " not equals " + ToStr(value)])
    else if op == "$like" then Ok([field + " matches pattern '" + ToStr(value) + "'"])
    else if op == "$gt" then Ok([field + " greater than " + ToStr(value)])
    else if op == "$lt" then Ok([field + " less than " + ToStr(value)])
    else if op == "$between" then
      match Subscript(value, 0)
      case Err(e) => Err(e)
      case Ok(low) =>
        match Subscript(value, 1)
        case Err(e) => Err(e)
        case Ok(high) => Ok([field + " between " + low + " and " + high])
    else if op == "$in" then Ok([field + " in " + ToStr(value)])
    else if op == "$null" then Ok([field + " is null"])
    else if op == "$notnull" then Ok([field + " is not null"])
    else Ok([])
  }

  /** The clauses of one field's operator dict, in dict order; the first error stops the walk. */
  function OperatorClauses(field: string, ops: seq<Member>): Result<seq<string>> {
    if ops == [] then Ok([])
    else
      match OperatorClauses(field, ops[..|ops| - 1])
      case Err(e) => Err(e)
      case Ok(done) =>
        var last := ops[|ops| - 1];
        match OperatorClause(field, last.key, last.value)
        case Err(e) => Err(e)
        case Ok(more) => Ok(done + more)
  }

  /** A dict condition is explained operator by operator; anything else reads "field equals v". */
  function ConditionClauses(m: Member): (r: Result<seq<string>>)
    ensures !m.value.Object? ==> r == Ok([m.key + " equals " + ToStr(m.value)])
  {
    if m.value.Object? then OperatorClauses(m.key, m.value.members)
    else Ok([m.key + " equals " + ToStr(m.value)])
  }

  /** The clauses of a whole filter, field by field. */
  function FilterClauses(ms: seq<Member>): Result<seq<string>> {
    if ms == [] then Ok([])
    else
      match FilterClauses(ms[..|ms| - 1])
      case Err(e) => Err(e)
      case Ok(done) =>
        match ConditionClauses(ms[|ms| - 1])
        case Err(e) => Err(e)
        case Ok(more) => Ok(done + more)
  }

  /** What `explain_filter` returns, or the error it raises. */
  function Explanation(filter: Value): (r: Result<string>)
    ensures !filter.Object? ==> r == Err(NoAttribute(filter, "items"))
  {
    if !filter.Object? then Err(NoAttribute(filter, "items"))
    else
      match FilterClauses(filter.members)
      case Err(e) => Err(e)
      case Ok(clauses) => Ok(Join(" AND ", clauses))
  }

  /** The inner loop over one field's operators. */
  method ExplainOperators(field: string, ops: seq<Member>) returns (r: Result<seq<string>>)
    ensures r == OperatorClauses(field, ops)
  {
    var explanations: seq<string> := [];
    var j := 0;
    while j < |ops|
      invariant 0 <= j <= |ops|
      invariant OperatorClauses(field, ops[..j]) == Ok(explanations)
    {
      assert ops[..j + 1][..j] == ops[..j];
      var clause := OperatorClause(field, ops[j].key, ops[j].value);
      if clause.Err? {
        OperatorClausesErr(field, ops, j + 1);
        return Err(clause.error);
      }
      explanations := explanations + clause.value;
      j := j + 1;
    }
    assert ops[..|ops|] == ops;
    r := Ok(explanations);
  }

  lemma {:induction false} OperatorClausesErr(field: string, ops: seq<Member>, k: nat)
    requires k <= |ops| && OperatorClauses(field, ops[..k]).Err?
    ensures OperatorClauses(field, ops) == OperatorClauses(field, ops[..k])
    decreases |ops| - k
  {
    if k < |ops| {
      assert ops[..k + 1][..k] == ops[..k];
      OperatorClausesErr(field, ops, k + 1);
    } else {
      assert ops[..k] == ops;
    }
  }

  lemma {:induction false} FilterClausesErr(ms: seq<Member>, k: nat)
    requires k <= |ms| && FilterClauses(ms[..k]).Err?
    ensures FilterClauses(ms) == FilterClauses(ms[..k])
    decreases |ms| - k
  {
    if k < |ms| {
      assert ms[..k + 1][..k] == ms[..k];
      FilterClausesErr(ms, k + 1);
    } else {
      assert ms[..k] == ms;
    }
  }

  /** `QueryDebugger.explain_filter` */
  method ExplainFilter(filter: Value) returns (r: Result<string>)
    ensures r == Explanation(filter)
  {
    if !filter.Object? {
      return Err(NoAttribute(filter, "items"));
    }
    var ms := filter.members;
    var explanations: seq<string> := [];
    var i := 0;
    while i < |ms|
      invariant 0 <= i <= |ms|
      invariant FilterClauses(ms[..i]) == Ok(explanations)
    {
      assert ms[..i + 1][..i] == ms[..i];
      var field := ms[i].key;
      var condition := ms[i].value;
      var clauses: Result<seq<string>>;
      if condition.Object? {
        clauses := ExplainOperators(field, condition.members);
      } else {
        clauses := Ok([field + " equals " + ToStr(condition)]);
      }
      if clauses.Err? {
        FilterClausesErr(ms, i + 1);
        return Err(clauses.error);
      }
      explanations := explanations + clauses.value;
      i := i + 1;
    }
    assert ms[..|ms|] == ms;
    r := Ok(Join(" AND ", explanations));
  }

  // ---------------------------------------------------------------- properties of explain_filter

  function ExplainedCount(ops: seq<Member>): nat {
    if ops == [] then 0
    else ExplainedCount(ops[..|ops| - 1]) + (if ops[|ops| - 1].key in ExplainedOperators then 1 else 0)
  }

  /** One clause per field and recognised operator, and one per non-dict condition. */
  function ClauseCount(ms: seq<Member>): nat {
    if ms == [] then 0
    else
      var last := ms[|ms| - 1];
      ClauseCount(ms[..|ms| - 1]) + (if last.value.Object? then ExplainedCount(last.value.members) else 1)
  }

  lemma {:induction false} OperatorClausesCount(field: string, ops: seq<Member>)
    requires OperatorClauses(field, ops).Ok?
    ensures |OperatorClauses(field, ops).value| == ExplainedCount(ops)
  {
    if ops != [] {
      OperatorClausesCount(field, ops[..|ops| - 1]);
    }
  }

  /** A successful explanation has exactly `ClauseCount` clauses. */
  lemma {:induction false} FilterClausesCount(ms: seq<Member>)
    requires FilterClauses(ms).Ok?
    ensures |FilterClauses(ms).value| == ClauseCount(ms)
  {
    if ms != [] {
      FilterClausesCount(ms[..|ms| - 1]);
      var last := ms[|ms| - 1];
      if last.value.Object? {
        OperatorClausesCount(last.key, last.value.members);
      }
    }
  }

  /** A `$between` whose value has two elements; every other operator always explains. */
  predicate ExplainableOps(ops: seq<Member>) {
    forall i :: 0 <= i < |ops| ==> OperatorClause("", ops[i].key, ops[i].value).Ok?
  }

  lemma {:induction false} OperatorClausesOk(field: string, ops: seq<Member>)
    requires ExplainableOps(ops)
    ensures OperatorClauses(field, ops).Ok?
  {
    if ops != [] {
      OperatorClausesOk(field, ops[..|ops| - 1]);
      var last := ops[|ops| - 1];
      assert OperatorClause("", last.key, last.value).Ok?;
    }
  }

  /** Only a `$between` with fewer than two elements can make the explanation fail. */
  lemma {:induction false} FilterClausesOk(ms: seq<Member>)
    requires forall i :: 0 <= i < |ms| && ms[i].value.Object? ==> ExplainableOps(ms[i].value.members)
    ensures FilterClauses(ms).Ok?
  {
    if ms != [] {
      FilterClausesOk(ms[..|ms| - 1]);
      var last := ms[|ms| - 1];
      if last.value.Object? {
        OperatorClausesOk(last.key, last.value.members);
      }
    }
  }

  // ---------------------------------------------------------------- debug_query_step_by_step

  datatype Step = Step(number: int, name: string, description: string)

  datatype DebugReport = DebugReport(query: Value, steps: seq<Step>, totalSteps: int)

  /** `[k for k in query.keys() if not k.startswith("$")]` */
  function EntityKeys(ms: seq<Member>): (r: seq<string>)
    ensures forall k :: k in r ==> Validators.IsEntityKey(k)
    ensures r == [] <==> Validators.FirstEntityMember(ms).None?
    ensures r != [] ==> r[0] == Validators.FirstEntityMember(ms).value.key
  {
    if ms == [] then []
    else if Validators.IsEntityKey(ms[0].key) then [ms[0].key] + EntityKeys(ms[1..])
    else EntityKeys(ms[1..])
  }

  /** At most one step, carrying the given number. */
  predicate NumberedAs(steps: seq<Step>, number: int) {
    |steps| <= 1 && forall i :: 0 <= i < |steps| ==> steps[i].number == number
  }

  /** Step 1: the entity, when the query names one. */
  function EntityStep(ms: seq<Member>): (r: seq<Step>)
    ensures NumberedAs(r, 1) && (r != [] <==> EntityKeys(ms) != [])
  {
    var entity := EntityKeys(ms);
    if entity != [] then [Step(1, "Entity Selection", "Query entity: " + entity[0])] else []
  }

  /** Step 2 is taken only when the entity's value is truthy. */
  predicate TakesFilterStep(ms: seq<Member>) {
    EntityKeys(ms) != [] && Truthy(GetOrNull(ms, EntityKeys(ms)[0]))
  }

  /** Step 2: the entity's value explained as a filter. */
  function FilterStep(ms: seq<Member>): (r: Result<seq<Step>>)
    ensures r.Ok? ==> NumberedAs(r.value, 2) && (r.value != [] <==> TakesFilterStep(ms))
    ensures r.Err? ==> TakesFilterStep(ms) && Explanation(GetOrNull(ms, EntityKeys(ms)[0])).Err?
  {
    if TakesFilterStep(ms) then
      var cond := GetOrNull(ms, EntityKeys(ms)[0]);
      if Truthy(cond) then
        match Explanation(cond)
        case Ok(text) => Ok([Step(2, "Filtering", text)])
        case Err(e) => Err(e)
      else Ok([Step(2, "Filtering", "No filter (all records)")])
    else Ok([])
  }

  /** Step 3, with the errors `len()` and `.keys()` raise on a `$attributes` that is not a dict. */
  function AttributesStep(attrs: Value): (r: Result<Step>)
    ensures r.Ok? <==> attrs.Object?
    ensures r.Ok? ==> r.value.number == 3
  {
    match attrs
    case Object(ms) =>
      Ok(Step(3, "Column Selection", "Select " + IntToString(|ms|) + " attributes: " + ReprStrings(Keys(ms))))
    case List(_) => Err(NoAttribute(attrs, "keys"))
    case Str(_) => Err(NoAttribute(attrs, "keys"))
    case _ => Err(PyError("TypeError", "object of type '" + TypeName(attrs) + "' has no len()"))
  }

  function ColumnStep(ms: seq<Member>): (r: Result<seq<Step>>)
    ensures r.Ok? ==> NumberedAs(r.value, 3) && (r.value != [] <==> HasKey(ms, "$attributes"))
    ensures r.Err? <==> HasKey(ms, "$attributes") && !Get(ms, "$attributes").value.Object?
  {
    match Get(ms, "$attributes")
    case Some(attrs) =>
      (match AttributesStep(attrs) case Ok(st) => Ok([st]) case Err(e) => Err(e))
    case None => Ok([])
  }

  /** Steps 4 and 5: a directive shown with `str()`. */
  function DirectiveStep(ms: seq<Member>, key: string, number: int, name: string, caption: string): (r: seq<Step>)
    ensures NumberedAs(r, number) && (r != [] <==> HasKey(ms, key))
  {
    match Get(ms, key)
    case Some(v) => [Step(number, name, caption + ToStr(v))]
    case None => []
  }

  function SortStep(ms: seq<Member>): seq<Step> {
    DirectiveStep(ms, "$orderby", 4, "Sorting", "Order by: ")
  }

  function OptionsStep(ms: seq<Member>): seq<Step> {
    DirectiveStep(ms, "$options", 5, "Options", "Options: ")
  }

  /** What `debug_query_step_by_step` returns, or the error it raises. */
  function StepByStep(query: Value): (r: Result<DebugReport>)
    ensures !query.Object? ==> r == Err(NoAttribute(query, "keys"))
    ensures r.Ok? ==> r.value.query == query && r.value.totalSteps == |r.value.steps|
    ensures query.Object? ==> (r.Err? <==> FilterStep(query.members).Err? || ColumnStep(query.members).Err?)
  {
    if !query.Object? then Err(NoAttribute(query, "keys"))
    else
      var ms := query.members;
      match FilterStep(ms)
      case Err(e) => Err(e)
      case Ok(filtering) =>
        match ColumnStep(ms)
        case Err(e) => Err(e)
        case Ok(columns) =>
          var steps := EntityStep(ms) + filtering + columns + SortStep(ms) + OptionsStep(ms);
          Ok(DebugReport(query, steps, |steps|))
  }

  /** The numbers of the steps, in order. */
  function StepNumbers(steps: seq<Step>): (r: seq<int>)
    ensures |r| == |steps| && forall i :: 0 <= i < |r| ==> r[i] == steps[i].number
  {
    if steps == [] then [] else [steps[0].number] + StepNumbers(steps[1..])
  }

  lemma {:induction false} StepNumbersAppend(a: seq<Step>, b: seq<Step>)
    ensures StepNumbers(a + b) == StepNumbers(a) + StepNumbers(b)
  {
    if a != [] {
      StepNumbersAppend(a[1..], b);
      assert (a + b)[1..] == a[1..] + b;
    }
  }

  function Present(present: bool, number: int): seq<int> {
    if present then [number] else []
  }

  lemma {:induction false} NumberedSteps(steps: seq<Step>, number: int)
    requires NumberedAs(steps, number)
    ensures StepNumbers(steps) == Present(steps != [], number)
  {
  }

  /** The report lists steps 1 to 5 in ascending order, each exactly when its part of the query is there. */
  lemma {:induction false} StepNumbering(ms: seq<Member>)
    requires StepByStep(Object(ms)).Ok?
    ensures StepNumbers(StepByStep(Object(ms)).value.steps)
            == Present(EntityKeys(ms) != [], 1) + Present(TakesFilterStep(ms), 2)
               + Present(HasKey(ms, "$attributes"), 3) + Present(HasKey(ms, "$orderby"), 4)
               + Present(HasKey(ms, "$options"), 5)
  {
    var s1, s2, s3, s4, s5 := EntityStep(ms), FilterStep(ms).value, ColumnStep(ms).value, SortStep(ms), OptionsStep(ms);
    NumberedSteps(s1, 1);
    NumberedSteps(s2, 2);
    NumberedSteps(s3, 3);
    NumberedSteps(s4, 4);
    NumberedSteps(s5, 5);
    StepNumbersAppend(s1, s2);
    StepNumbersAppend(s1 + s2, s3);
    StepNumbersAppend(s1 + s2 + s3, s4);
    StepNumbersAppend(s1 + s2 + s3 + s4, s5);
  }

  /** The step-2 filter explanation assumes a dict: the id shorthand `{"AoUnit": 123}` raises. */
  lemma {:induction false} IdShorthandBreaksDebug()
    ensures StepByStep(Object([Member("AoUnit", Int(123))]))
            == Err(NoAttribute(Int(123), "items"))
  {
    var ms := [Member("AoUnit", Int(123))];
    StartsWithChar("AoUnit", '$');
    assert EntityKeys(ms) == ["AoUnit"];
    assert Get(ms, "AoUnit") == Some(Int(123));
    assert FilterStep(ms) == Err(NoAttribute(Int(123), "items"));
  }

  /** `QueryDebugger.debug_query_step_by_step` */
  method DebugQueryStepByStep(query: Value) returns (r: Result<DebugReport>)
    ensures r == StepByStep(query)
  {
    if !query.Object? {
      return Err(NoAttribute(query, "keys"));
    }
    var ms := query.members;
    var steps: seq<Step> := [];
    var entity := EntityKeys(ms);
    if entity != [] {
      steps := steps + [Step(1, "Entity Selection", "Query entity: " + entity[0])];
    }
    assert steps == EntityStep(ms);
    if entity != [] && Truthy(GetOrNull(ms, entity[0])) {
      var cond := GetOrNull(ms, entity[0]);
      var description: string;
      if Truthy(cond) {
        var text := ExplainFilter(cond);
        if text.Err? {
          assert FilterStep(ms) == Err(text.error);
          return Err(text.error);
        }
        description := text.value;
      } else {
        description := "No filter (all records)";
      }
      steps := steps + [Step(2, "Filtering", description)];
    }
    assert FilterStep(ms).Ok? && steps == EntityStep(ms) + FilterStep(ms).value;
    var attrs := Get(ms, "$attributes");
    if attrs.Some? {
      var step := AttributesStep(attrs.value);
      if step.Err? {
        assert ColumnStep(ms) == Err(step.error);
        return Err(step.error);
      }
      steps := steps + [step.value];
    }
    assert ColumnStep(ms).Ok? && steps == EntityStep(ms) + FilterStep(ms).value + ColumnStep(ms).value;
    var orderby := Get(ms, "$orderby");
    if orderby.Some? {
      steps := steps + [Step(4, "Sorting", "Order by: " + ToStr(orderby.value))];
    }
    assert steps == EntityStep(ms) + FilterStep(ms).value + ColumnStep(ms).value + SortStep(ms);
    var options := Get(ms, "$options");
    if options.Some? {
      steps := steps + [Step(5, "Options", "Options: " + ToStr(options.value))];
    }
    assert steps == EntityStep(ms) + FilterStep(ms).value + ColumnStep(ms).value + SortStep(ms) + OptionsStep(ms);
    r := Ok(DebugReport(query, steps, |steps|));
  }

  // ---------------------------------------------------------------- suggest_fixes_for_issue

  const NoResultsFixes: seq<string> := [
    "Try removing the filter to get all records",
    "Check if filter fields exist in schema",
    "Verify filter values match data types",
    "Use $like with wildcards instead of exact match"]

  const UnknownFieldFixes: seq<string> := [
    "Check available fields with check_entity_schema tool",
    "Verify field name spelling and casing"]

  const RelationshipFixes: seq<string> := [
    "Use :OUTER suffix for optional relationships",
    "Use dot notation for required relationships",
    "Check if relationship target has data"]

  const EmptyFixes: seq<string> := [
    "Add $rowlimit to see some results",
    "Remove filters to test entity access",
    "Use debug_query tool to trace each step"]

  const DefaultFixes: seq<string> := [
    "Check query syntax with validate_jaquel_query",
    "Explain query with explain_jaquel_query",
    "Debug step-by-step with generate_debug_query"]

  /** The group of fixes a keyword of the lower-cased issue selects. */
  function FixGroup(lower: string, keyword: string, group: seq<string>): seq<string> {
    if Contains(lower, keyword) then group else []
  }

  predicate MatchesAnyKeyword(issue: string) {
    var lower := Lower(issue);
    Contains(lower, "no results") || Contains(lower, "unknown field")
    || Contains(lower, "relationship") || Contains(lower, "empty")
  }

  /** `QueryDebugger.suggest_fixes_for_issue`; the query argument is not consulted. */
  function SuggestFixesForIssue(issue: string, query: Value): (r: seq<string>)
    ensures r != []
    ensures !MatchesAnyKeyword(issue) ==> r == DefaultFixes
    ensures MatchesAnyKeyword(issue) ==>
              |r| == (if Contains(Lower(issue), "no results") then 4 else 0)
                     + (if Contains(Lower(issue), "unknown field") then 2 else 0)
                     + (if Contains(Lower(issue), "relationship") then 3 else 0)
                     + (if Contains(Lower(issue), "empty") then 3 else 0)
    ensures Contains(Lower(issue), "no results") ==> r[..4] == NoResultsFixes
  {
    var lower := Lower(issue);
    var found := FixGroup(lower, "no results", NoResultsFixes)
                 + FixGroup(lower, "unknown field", UnknownFieldFixes)
                 + FixGroup(lower, "relationship", RelationshipFixes)
                 + FixGroup(lower, "empty", EmptyFixes);
    if found == [] then DefaultFixes else found
  }

  /** Keywords are matched without regard to letter case. */
  lemma {:induction false} FixesIgnoreCase(a: string, b: string, query: Value)
    requires Lower(a) == Lower(b)
    ensures SuggestFixesForIssue(a, query) == SuggestFixesForIssue(b, query)
  {
  }
}
