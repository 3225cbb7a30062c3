/**
 * The Jaquel query validator (`JaquelValidator`) and optimiser
 * (`JaquelOptimizer`): the fixed operator vocabulary, the top-level shape
 * check of a query document, the recursive check of a filter condition,
 * the operator documentation table and the shorthand suggestions.
 */
module Validators {
  import opened Text
  import opened Json

  // ---------------------------------------------------------------- vocabulary

  const ComparisonOperators: set<string> :=
    {"$eq", "$neq", "$lt", "$gt", "$lte", "$gte", "$in", "$notinset", "$like", "$notlike",
     "$null", "$notnull", "$between"}

  const LogicalOperators: set<string> := {"$and", "$or", "$not"}

  const AggregateFunctions: set<string> :=
    {"$none", "$count", "$dcount", "$min", "$max", "$avg", "$stddev", "$sum", "$distinct",
     "$point", "$ia"}

  const SpecialKeys: set<string> :=
    {"$attributes", "$orderby", "$groupby", "$options", "$unit", "$nested", "$rowlimit",
     "$rowskip", "$seqlimit", "$seqskip"}

  const AllOperators: set<string> :=
    ComparisonOperators + LogicalOperators + AggregateFunctions + SpecialKeys

  // ---------------------------------------------------------------- validate_query

  /** The messages `validate_query` reports; `QueryMessageText` gives their exact wording. */
  datatype QueryMessage =
    | QueryNotDict
    | EntityMissing
    | EntityIsNone(entity: string)
    | EntityWrongType(entity: string)
    | UnknownSpecialKey(key: string)
    | AttributesNotDict
    | AttributesEmpty
    | OrderbyNotDict
    | GroupbyNotDict
    | RowlimitNotInt
    | RowskipNotInt

  function QueryMessageText(m: QueryMessage): string {
    match m
    case QueryNotDict => "Query must be a dictionary"
    case EntityMissing => "Query must contain an entity name (non-$ key)"
    case EntityIsNone(e) => "Entity '" + e + "' query value cannot be None"
    case EntityWrongType(e) => "Entity '" + e + "' query value must be dict, int, or string"
    case UnknownSpecialKey(k) => "Unknown special key: " + k
    case AttributesNotDict => "$attributes must be a dictionary"
    case AttributesEmpty => "$attributes is empty - consider removing it or adding attributes"
    case OrderbyNotDict => "$orderby must be a dictionary with attribute names as keys and 0/1 as values"
    case GroupbyNotDict => "$groupby must be a dictionary"
    case RowlimitNotInt => "$rowlimit must be an integer"
    case RowskipNotInt => "$rowskip must be an integer"
  }

  datatype QueryValidation = QueryValidation(
    valid: bool, errors: seq<QueryMessage>, warnings: seq<QueryMessage>, suggestions: seq<QueryMessage>)

  /** A top-level key that names the entity rather than a `$` directive. */
  predicate IsEntityKey(key: string) {
    !StartsWith(key, "$")
  }

  /** The first member whose key does not start with `$` (dict order). */
  function FirstEntityMember(ms: seq<Member>): (r: Option<Member>)
    ensures r.Some? ==> IsEntityKey(r.value.key)
  {
    if ms == [] then None
    else if IsEntityKey(ms[0].key) then Some(ms[0])
    else FirstEntityMember(ms[1..])
  }

  /** The loop's entity is the member at the first non-`$` position, and there is none when every key is a `$` key. */
  lemma {:induction false} FirstEntityMemberIsFirst(ms: seq<Member>)
    ensures FirstEntityMember(ms).None? <==> forall i :: 0 <= i < |ms| ==> !IsEntityKey(ms[i].key)
    ensures FirstEntityMember(ms).Some? ==>
              exists i :: 0 <= i < |ms| && ms[i] == FirstEntityMember(ms).value
                          && forall j :: 0 <= j < i ==> !IsEntityKey(ms[j].key)
  {
    if ms != [] && !IsEntityKey(ms[0].key) {
      FirstEntityMemberIsFirst(ms[1..]);
      assert forall i :: 1 <= i < |ms| ==> ms[i] == ms[1..][i - 1];
      if FirstEntityMember(ms).Some? {
        var i :| 0 <= i < |ms[1..]| && ms[1..][i] == FirstEntityMember(ms).value
                 && forall j :: 0 <= j < i ==> !IsEntityKey(ms[1..][j].key);
        assert ms[i + 1] == FirstEntityMember(ms).value;
      }
    }
  }

  /** The entity name `validate_query` accepts: the first non-`$` key, if it is not empty. */
  function EntityName(ms: seq<Member>): Option<string> {
    match FirstEntityMember(ms)
    case Some(m) => if m.key == "" then None else Some(m.key)
    case None => None
  }

  /** An entity value must be a dict, an int (bool included) or a string. */
  predicate IsEntityValueType(v: Value) {
    v.Object? || IsPyInt(v) || v.Str?
  }

  function EntityValueErrors(entity: string, v: Value): (r: seq<QueryMessage>)
    ensures EntityIsNone(entity) in r <==> v.Null?
    ensures EntityWrongType(entity) in r <==> !v.Null? && !IsEntityValueType(v)
    ensures forall e :: e in r ==> e.EntityIsNone? || e.EntityWrongType?
  {
    if v.Null? then [EntityIsNone(entity)]
    else if !IsEntityValueType(v) then [EntityWrongType(entity)]
    else []
  }

  function KeyWarning(key: string): seq<QueryMessage> {
    if StartsWith(key, "$") && key !in SpecialKeys then [UnknownSpecialKey(key)] else []
  }

  /** The warnings of the loop over all keys, in key order. */
  function SpecialKeyWarnings(ms: seq<Member>): seq<QueryMessage> {
    if ms == [] then [] else SpecialKeyWarnings(ms[..|ms| - 1]) + KeyWarning(ms[|ms| - 1].key)
  }

  /** `key in query and not isinstance(query[key], dict)` adds `message`. */
  function NotDictErrors(ms: seq<Member>, key: string, message: QueryMessage): (r: seq<QueryMessage>)
    ensures forall e :: e in r ==> e == message
    ensures message in r <==> HasKey(ms, key) && !GetOrNull(ms, key).Object?
  {
    match Get(ms, key)
    case Some(v) => if v.Object? then [] else [message]
    case None => []
  }

  function AttributesSuggestions(ms: seq<Member>): seq<QueryMessage> {
    if Get(ms, "$attributes") == Some(Object([])) then [AttributesEmpty] else []
  }

  /** `opts.get(key)` is checked only when it is not None. */
  function IntOptionErrors(opts: seq<Member>, key: string, message: QueryMessage): (r: seq<QueryMessage>)
    ensures forall e :: e in r ==> e == message
    ensures message in r <==> !GetOrNull(opts, key).Null? && !IsPyInt(GetOrNull(opts, key))
  {
    var v := GetOrNull(opts, key);
    if !v.Null? && !IsPyInt(v) then [message] else []
  }

  function OptionsErrors(ms: seq<Member>): (r: seq<QueryMessage>)
    ensures forall e :: e in r ==> e == RowlimitNotInt || e == RowskipNotInt
    ensures forall opts :: Get(ms, "$options") == Some(Object(opts)) ==>
              && (RowlimitNotInt in r <==> !GetOrNull(opts, "$rowlimit").Null? && !IsPyInt(GetOrNull(opts, "$rowlimit")))
              && (RowskipNotInt in r <==> !GetOrNull(opts, "$rowskip").Null? && !IsPyInt(GetOrNull(opts, "$rowskip")))
  {
    match Get(ms, "$options")
    case Some(Object(opts)) =>
      IntOptionErrors(opts, "$rowlimit", RowlimitNotInt) + IntOptionErrors(opts, "$rowskip", RowskipNotInt)
    case _ => []
  }

  /** The errors found once an entity name is known, in the order the checks run. */
  function ShapeErrors(ms: seq<Member>, entity: string): seq<QueryMessage> {
    EntityValueErrors(entity, GetOrNull(ms, entity)) + DirectiveErrors(ms) + OptionsErrors(ms)
  }

  /** `$attributes`, `$orderby` and `$groupby`, when present, must be dicts. */
  function DirectiveErrors(ms: seq<Member>): (r: seq<QueryMessage>)
    ensures forall e :: e in r ==> e == AttributesNotDict || e == OrderbyNotDict || e == GroupbyNotDict
    ensures AttributesNotDict in r <==> HasKey(ms, "$attributes") && !GetOrNull(ms, "$attributes").Object?
    ensures OrderbyNotDict in r <==> HasKey(ms, "$orderby") && !GetOrNull(ms, "$orderby").Object?
    ensures GroupbyNotDict in r <==> HasKey(ms, "$groupby") && !GetOrNull(ms, "$groupby").Object?
  {
    NotDictErrors(ms, "$attributes", AttributesNotDict)
    + NotDictErrors(ms, "$orderby", OrderbyNotDict)
    + NotDictErrors(ms, "$groupby", GroupbyNotDict)
  }

  /** What `validate_query` returns for `query`. */
  function Validation(query: Value): (r: QueryValidation)
    ensures r.valid <==> r.errors == []
    ensures !query.Object? ==> r == QueryValidation(false, [QueryNotDict], [], [])
    ensures query.Object? && EntityName(query.members).None? ==>
              r == QueryValidation(false, [EntityMissing], [], [])
    ensures query.Object? && EntityName(query.members).Some? ==>
              r.warnings == SpecialKeyWarnings(query.members)
              && r.suggestions == AttributesSuggestions(query.members)
  {
    if !query.Object? then QueryValidation(false, [QueryNotDict], [], [])
    else
      var ms := query.members;
      match EntityName(ms)
      case None => QueryValidation(false, [EntityMissing], [], [])
      case Some(entity) =>
        var errors := ShapeErrors(ms, entity);
        QueryValidation(errors == [], errors, SpecialKeyWarnings(ms), AttributesSuggestions(ms))
  }

  /** The loop that looks for the entity: the first key not starting with `$`. */
  method FindEntity(ms: seq<Member>) returns (r: Option<Member>)
    ensures r == FirstEntityMember(ms)
  {
    r := None;
    var i := 0;
    while i < |ms|
      invariant 0 <= i <= |ms|
      invariant FirstEntityMember(ms) == FirstEntityMember(ms[i..])
    {
      assert ms[i..][1..] == ms[i + 1..];
      if IsEntityKey(ms[i].key) {
        r := Some(ms[i]);
        return;
      }
      i := i + 1;
    }
  }

  /** The loop over all keys that warns about unknown `$` keys. */
  method CollectSpecialKeyWarnings(ms: seq<Member>) returns (warnings: seq<QueryMessage>)
    ensures warnings == SpecialKeyWarnings(ms)
  {
    warnings := [];
    var i := 0;
    while i < |ms|
      invariant 0 <= i <= |ms|
      invariant warnings == SpecialKeyWarnings(ms[..i])
    {
      assert ms[..i + 1][..i] == ms[..i];
      var key := ms[i].key;
      if StartsWith(key, "$") && key !in SpecialKeys {
        warnings := warnings + [UnknownSpecialKey(key)];
      }
      i := i + 1;
    }
    assert ms[..|ms|] == ms;
  }

  /** The `$attributes`, `$orderby` and `$groupby` checks. */
  method CheckDirectives(ms: seq<Member>) returns (errors: seq<QueryMessage>, suggestions: seq<QueryMessage>)
    ensures errors == DirectiveErrors(ms)
    ensures suggestions == AttributesSuggestions(ms)
  {
    errors := [];
    suggestions := [];
    var attrs := Get(ms, "$attributes");
    if attrs.Some? {
      if !attrs.value.Object? {
        errors := errors + [AttributesNotDict];
      } else if |attrs.value.members| == 0 {
        suggestions := suggestions + [AttributesEmpty];
      }
    }
    assert errors == NotDictErrors(ms, "$attributes", AttributesNotDict);
    var orderby := Get(ms, "$orderby");
    if orderby.Some? && !orderby.value.Object? {
      errors := errors + [OrderbyNotDict];
    }
    var groupby := Get(ms, "$groupby");
    if groupby.Some? && !groupby.value.Object? {
      errors := errors + [GroupbyNotDict];
    }
  }

  /** The `$options` checks: `$rowlimit` and `$rowskip` must be None or an int. */
  method CheckOptions(ms: seq<Member>) returns (errors: seq<QueryMessage>)
    ensures errors == OptionsErrors(ms)
  {
    errors := [];
    var opts := Get(ms, "$options");
    if opts.Some? {
      if opts.value.Object? {
        var rowlimit := GetOrNull(opts.value.members, "$rowlimit");
        if !rowlimit.Null? && !IsPyInt(rowlimit) {
          errors := errors + [RowlimitNotInt];
        }
        var rowskip := GetOrNull(opts.value.members, "$rowskip");
        if !rowskip.Null? && !IsPyInt(rowskip) {
          errors := errors + [RowskipNotInt];
        }
      }
    }
  }

  /** `JaquelValidator.validate_query` */
  method ValidateQuery(query: Value) returns (r: QueryValidation)
    ensures r == Validation(query)
  {
    if !query.Object? {
      return QueryValidation(false, [QueryNotDict], [], []);
    }
    var ms := query.members;
    var found := FindEntity(ms);
    if found.None? || found.value.key == "" {
      return QueryValidation(false, [EntityMissing], [], []);
    }
    var entity := found.value.key;
    var errors: seq<QueryMessage> := [];
    var entityQuery := GetOrNull(ms, entity);
    if entityQuery.Null? {
      errors := errors + [EntityIsNone(entity)];
    } else if !IsEntityValueType(entityQuery) {
      errors := errors + [EntityWrongType(entity)];
    }
    assert errors == EntityValueErrors(entity, entityQuery);
    var warnings := CollectSpecialKeyWarnings(ms);

    var directiveErrors, suggestions := CheckDirectives(ms);
    errors := errors + directiveErrors;
    var optionErrors := CheckOptions(ms);
    errors := errors + optionErrors;
    assert errors == ShapeErrors(ms, entity);
    r := QueryValidation(|errors| == 0, errors, warnings, suggestions);
  }

  // ---------------------------------------------------------------- properties of validate_query

  /** The warnings of two runs of keys are those of the first run followed by those of the second. */
  lemma {:induction false} SpecialKeyWarningsConcat(a: seq<Member>, b: seq<Member>)
    ensures SpecialKeyWarnings(a + b) == SpecialKeyWarnings(a) + SpecialKeyWarnings(b)
  {
    if b == [] {
      assert a + b == a;
    } else {
      var init := b[..|b| - 1];
      assert (a + b)[..|a + b| - 1] == a + init;
      SpecialKeyWarningsConcat(a, init);
    }
  }

  /** A `$` key never becomes the entity, wherever it is inserted. */
  lemma {:induction false} FirstEntityInsertDirective(pre: seq<Member>, m: Member, post: seq<Member>)
    requires !IsEntityKey(m.key)
    ensures FirstEntityMember(pre + [m] + post) == FirstEntityMember(pre + post)
  {
    if pre == [] {
      assert pre + [m] + post == [m] + post && pre + post == post;
      assert ([m] + post)[1..] == post;
    } else {
      assert (pre + [m] + post)[1..] == pre[1..] + [m] + post;
      assert (pre + post)[1..] == pre[1..] + post;
      FirstEntityInsertDirective(pre[1..], m, post);
    }
  }

  /** Inserting a key leaves every other key's value unchanged. */
  lemma {:induction false} GetInsertOther(pre: seq<Member>, m: Member, post: seq<Member>, key: string)
    requires key != m.key
    ensures Get(pre + [m] + post, key) == Get(pre + post, key)
  {
    if pre == [] {
      assert pre + [m] + post == [m] + post && pre + post == post;
      assert ([m] + post)[1..] == post;
    } else {
      assert (pre + [m] + post)[1..] == pre[1..] + [m] + post;
      assert (pre + post)[1..] == pre[1..] + post;
      GetInsertOther(pre[1..], m, post, key);
    }
  }

  /** Inserting a `$` key other than the checked directives leaves the shape errors as they were. */
  lemma {:induction false} ShapeErrorsInsert(pre: seq<Member>, m: Member, post: seq<Member>, entity: string)
    requires !IsEntityKey(m.key) && IsEntityKey(entity) && m.key !in SpecialKeys
    ensures ShapeErrors(pre + [m] + post, entity) == ShapeErrors(pre + post, entity)
  {
    GetInsertOther(pre, m, post, entity);
    GetInsertOther(pre, m, post, "$attributes");
    GetInsertOther(pre, m, post, "$orderby");
    GetInsertOther(pre, m, post, "$groupby");
    GetInsertOther(pre, m, post, "$options");
  }

  /** An unknown `$` key inserted between two runs of keys puts its warning between theirs. */
  lemma {:induction false} WarningsInsert(pre: seq<Member>, m: Member, post: seq<Member>)
    requires StartsWith(m.key, "$") && m.key !in SpecialKeys
    ensures SpecialKeyWarnings(pre + [m] + post) == SpecialKeyWarnings(pre) + [UnknownSpecialKey(m.key)] + SpecialKeyWarnings(post)
  {
    SpecialKeyWarningsConcat(pre + [m], post);
    SpecialKeyWarningsConcat(pre, [m]);
    assert [m][..0] == [];
  }

  /**
   * An unknown top-level `$` key, wherever it stands in the query, only adds
   * an "Unknown special key" warning, among the other key warnings at its
   * own position: validity, errors and suggestions stay as they were.
   */
  lemma {:induction false} UnknownSpecialKeyOnlyWarns(ms: seq<Member>, i: nat, key: string, v: Value)
    requires i <= |ms| && StartsWith(key, "$") && key !in SpecialKeys
    ensures var before := Validation(Object(ms));
            var after := Validation(Object(ms[..i] + [Member(key, v)] + ms[i..]));
            && after.valid == before.valid && after.errors == before.errors
            && after.suggestions == before.suggestions
            && (EntityName(ms).None? ==> after.warnings == before.warnings == [])
            && (EntityName(ms).Some? ==>
                  && before.warnings == SpecialKeyWarnings(ms[..i]) + SpecialKeyWarnings(ms[i..])
                  && after.warnings == SpecialKeyWarnings(ms[..i]) + [UnknownSpecialKey(key)] + SpecialKeyWarnings(ms[i..]))
  {
    var m := Member(key, v);
    var pre, post := ms[..i], ms[i..];
    assert pre + post == ms;
    FirstEntityInsertDirective(pre, m, post);
    SpecialKeyWarningsConcat(pre, post);
    WarningsInsert(pre, m, post);
    GetInsertOther(pre, m, post, "$attributes");
    if EntityName(ms).Some? {
      ShapeErrorsInsert(pre, m, post, EntityName(ms).value);
    }
  }

  /** The entity value check: None and non-(dict, int, str) values each add their one error. */
  lemma {:induction false} EntityValueChecked(ms: seq<Member>)
    requires EntityName(ms).Some?
    ensures var entity := EntityName(ms).value;
            var v := GetOrNull(ms, entity);
            var errors := Validation(Object(ms)).errors;
            && (v.Null? <==> EntityIsNone(entity) in errors)
            && (!v.Null? && !IsEntityValueType(v) <==> EntityWrongType(entity) in errors)
  {
    var entity := EntityName(ms).value;
    var rest := DirectiveErrors(ms) + OptionsErrors(ms);
    assert Validation(Object(ms)).errors == EntityValueErrors(entity, GetOrNull(ms, entity)) + rest;
    assert forall e :: e in rest ==> !e.EntityIsNone? && !e.EntityWrongType?;
  }

  /** Each malformed directive adds the error naming it, and only then. */
  lemma {:induction false} ShapeChecked(ms: seq<Member>)
    requires EntityName(ms).Some?
    ensures var errors := Validation(Object(ms)).errors;
            && (AttributesNotDict in errors <==> HasKey(ms, "$attributes") && !GetOrNull(ms, "$attributes").Object?)
            && (OrderbyNotDict in errors <==> HasKey(ms, "$orderby") && !GetOrNull(ms, "$orderby").Object?)
            && (GroupbyNotDict in errors <==> HasKey(ms, "$groupby") && !GetOrNull(ms, "$groupby").Object?)
  {
    var entity := EntityName(ms).value;
    var ev := EntityValueErrors(entity, GetOrNull(ms, entity));
    assert Validation(Object(ms)).errors == ev + DirectiveErrors(ms) + OptionsErrors(ms);
  }

  /** A `$rowlimit` or `$rowskip` inside a dict `$options` must be None or an int. */
  lemma {:induction false} RowOptionsChecked(ms: seq<Member>, opts: seq<Member>)
    requires EntityName(ms).Some? && Get(ms, "$options") == Some(Object(opts))
    ensures var errors := Validation(Object(ms)).errors;
            var rowlimit := GetOrNull(opts, "$rowlimit");
            var rowskip := GetOrNull(opts, "$rowskip");
            && (RowlimitNotInt in errors <==> !rowlimit.Null? && !IsPyInt(rowlimit))
            && (RowskipNotInt in errors <==> !rowskip.Null? && !IsPyInt(rowskip))
  {
    var entity := EntityName(ms).value;
    var front := EntityValueErrors(entity, GetOrNull(ms, entity)) + DirectiveErrors(ms);
    assert Validation(Object(ms)).errors == front + OptionsErrors(ms);
  }

  // ---------------------------------------------------------------- validate_filter_condition

  /** The messages `validate_filter_condition` reports; `path` says where in the condition. */
  datatype FilterMessage =
    | ConditionNotDict
    | UnknownOperator(key: string, path: string)
    | MissingExpression(key: string, path: string)
    | MissingArray(key: string, path: string)
    | ShouldBeOne(key: string, path: string)
    | NeedsList(key: string, path: string)

  function FilterMessageText(m: FilterMessage): string {
    match m
    case ConditionNotDict => "Condition must be a dictionary"
    case UnknownOperator(k, p) => "Unknown operator: " + k + p
    case MissingExpression(k, p) => k + " must contain expression" + p
    case MissingArray(k, p) => k + " must contain an array" + p
    case ShouldBeOne(k, p) => k + " should have value 1" + p
    case NeedsList(k, p) => k + " requires a list value" + p
  }

  datatype FilterValidation = FilterValidation(valid: bool, errors: seq<FilterMessage>, issues: seq<FilterMessage>)

  /** Errors and issues collected by the recursive walk, in visiting order. */
  datatype Findings = Findings(errors: seq<FilterMessage>, issues: seq<FilterMessage>)

  const NoFindings := Findings([], [])

  function Join2(a: Findings, b: Findings): Findings {
    Findings(a.errors + b.errors, a.issues + b.issues)
  }

  /** `validate_operator_dict(op_dict, path)`: every member in dict order. */
  function CheckMembers(ms: seq<Member>, path: string): Findings {
    if ms == [] then NoFindings else Join2(CheckMember(ms[0], path), CheckMembers(ms[1..], path))
  }

  /** The checks one key and its value receive. */
  function CheckMember(m: Member, path: string): Findings {
    var key := m.key;
    var value := m.value;
    if StartsWith(key, "$") then
      if key !in AllOperators then Findings([UnknownOperator(key, path)], [])
      else if key in LogicalOperators then
        if key == "$not" then
          if value.Object? then CheckMembers(value.members, path + "." + key)
          else Findings([MissingExpression(key, path)], [])
        else if value.List? then CheckItems(value.items, key, path, 0)
        else Findings([MissingArray(key, path)], [])
      else if key in ComparisonOperators then
        if key == "$null" || key == "$notnull" then
          if !EqualsOne(value) then Findings([], [ShouldBeOne(key, path)]) else NoFindings
        else if key == "$between" || key == "$in" || key == "$notinset" then
          if !value.List? then Findings([NeedsList(key, path)], []) else NoFindings
        else NoFindings
      else NoFindings
    else if value.Object? then CheckMembers(value.members, " for field '" + key + "'")
    else NoFindings
  }

  /** The items of an `$and`/`$or` list from position `index` on; non-dict items are skipped. */
  function CheckItems(items: seq<Value>, key: string, path: string, index: nat): Findings {
    if items == [] then NoFindings
    else
      var here := if items[0].Object?
                  then CheckMembers(items[0].members, path + "." + key + "[" + IntToString(index) + "]")
                  else NoFindings;
      Join2(here, CheckItems(items[1..], key, path, index + 1))
  }

  /** What `validate_filter_condition` returns for `condition`. */
  function ValidateFilterCondition(condition: Value): (r: FilterValidation)
    ensures r.valid <==> r.errors == []
    ensures !condition.Object? ==> r == FilterValidation(false, [ConditionNotDict], [])
    ensures condition.Object? ==>
              (r.valid <==> forall i :: 0 <= i < |condition.members| ==> CheckMember(condition.members[i], "").errors == [])
  {
    if !condition.Object? then FilterValidation(false, [ConditionNotDict], [])
    else
      var f := CheckMembers(condition.members, "");
      MembersValidIffEach(condition.members, "");
      FilterValidation(f.errors == [], f.errors, f.issues)
  }

  /** The walk finds no error exactly when no member has one. */
  lemma {:induction false} MembersValidIffEach(ms: seq<Member>, path: string)
    ensures CheckMembers(ms, path).errors == [] <==> forall i :: 0 <= i < |ms| ==> CheckMember(ms[i], path).errors == []
  {
    if ms != [] {
      MembersValidIffEach(ms[1..], path);
      assert forall i :: 1 <= i < |ms| ==> ms[i] == ms[1..][i - 1];
    }
  }

  /** A dict's findings are its first member's followed by the rest's. */
  lemma {:induction false} CheckMembersCons(ms: seq<Member>, path: string)
    requires ms != []
    ensures CheckMembers(ms, path).errors == CheckMember(ms[0], path).errors + CheckMembers(ms[1..], path).errors
    ensures CheckMembers(ms, path).issues == CheckMember(ms[0], path).issues + CheckMembers(ms[1..], path).issues
  {
  }

  /** Every error and issue of a member appears among those of its dict. */
  lemma {:induction false} MemberFindingsKept(ms: seq<Member>, path: string, i: nat)
    requires i < |ms|
    ensures forall e :: e in CheckMember(ms[i], path).errors ==> e in CheckMembers(ms, path).errors
    ensures forall e :: e in CheckMember(ms[i], path).issues ==> e in CheckMembers(ms, path).issues
  {
    CheckMembersCons(ms, path);
    if i > 0 {
      MemberFindingsKept(ms[1..], path, i - 1);
      assert ms[1..][i - 1] == ms[i];
    }
  }

  /** An unknown `$` key is reported as an error, wherever it stands in the dict. */
  lemma {:induction false} UnknownOperatorIsError(ms: seq<Member>, i: nat)
    requires i < |ms| && StartsWith(ms[i].key, "$") && ms[i].key !in AllOperators
    ensures UnknownOperator(ms[i].key, "") in ValidateFilterCondition(Object(ms)).errors
    ensures !ValidateFilterCondition(Object(ms)).valid
  {
    MemberFindingsKept(ms, "", i);
  }

  /** `$null`/`$notnull` with a value other than 1 is an issue, never an error. */
  lemma {:induction false} NullOperatorIsIssue(key: string, v: Value, path: string)
    requires key == "$null" || key == "$notnull"
    ensures CheckMember(Member(key, v), path).errors == []
    ensures CheckMember(Member(key, v), path).issues == if EqualsOne(v) then [] else [ShouldBeOne(key, path)]
  {
    assert key in AllOperators && key !in LogicalOperators && key in ComparisonOperators;
  }

  /** `$between`, `$in` and `$notinset` need a list; their length is not checked. */
  lemma {:induction false} ListOperatorsNeedList(key: string, v: Value, path: string)
    requires key == "$between" || key == "$in" || key == "$notinset"
    ensures CheckMember(Member(key, v), path) ==
            if v.List? then NoFindings else Findings([NeedsList(key, path)], [])
  {
    assert key in AllOperators && key !in LogicalOperators && key in ComparisonOperators;
  }

  /** `$not` needs a dict and `$and`/`$or` a list; otherwise one error. */
  lemma {:induction false} LogicalOperatorsShape(key: string, v: Value, path: string)
    requires key in LogicalOperators
    ensures key == "$not" && !v.Object? ==> CheckMember(Member(key, v), path) == Findings([MissingExpression(key, path)], [])
    ensures key != "$not" && !v.List? ==> CheckMember(Member(key, v), path) == Findings([MissingArray(key, path)], [])
  {
    assert key in AllOperators && StartsWith(key, "$");
  }

  /** Items of an `$and`/`$or` list that are not dicts contribute nothing. */
  lemma {:induction false} NonDictItemsSkipped(items: seq<Value>, key: string, path: string, index: nat)
    requires forall i :: 0 <= i < |items| ==> !items[i].Object?
    ensures CheckItems(items, key, path, index) == NoFindings
  {
    if items != [] {
      NonDictItemsSkipped(items[1..], key, path, index + 1);
    }
  }

  /** A one-element `$between` passes both validators: only list-ness is checked. */
  lemma {:induction false} BetweenArityNotChecked()
    ensures var cond := Object([Member("name", Object([Member("$between", List([Int(1)]))]))]);
            ValidateFilterCondition(cond).valid && Validation(Object([Member("AoMeasurement", cond)])).valid
  {
    var inner := [Member("$between", List([Int(1)]))];
    ListOperatorsNeedList("$between", List([Int(1)]), " for field 'name'");
    assert CheckMembers(inner, " for field 'name'") == NoFindings;
    StartsWithChar("name", '$');
    assert CheckMember(Member("name", Object(inner)), "") == NoFindings;
    StartsWithChar("AoMeasurement", '$');
    assert EntityName([Member("AoMeasurement", Object([Member("name", Object(inner))]))]) == Some("AoMeasurement");
  }

  // ---------------------------------------------------------------- get_operator_info

  datatype OperatorDoc = OperatorDoc(category: string, description: string, example: string, options: Option<string>)

  datatype OperatorInfo = Documented(doc: OperatorDoc) | NotDocumented(error: string)

  const CaseInsensitiveHint := "Use $options: 'i' for case-insensitive"

  const OperatorDocs: map<string, OperatorDoc> := map[
    "$eq" := OperatorDoc("comparison", "Equal comparison", "{\"name\": {\"$eq\": \"MyTest\"}}", Some(CaseInsensitiveHint)),
    "$neq" := OperatorDoc("comparison", "Not equal comparison", "{\"status\": {\"$neq\": \"active\"}}", None),
    "$lt" := OperatorDoc("comparison", "Less than", "{\"value\": {\"$lt\": 100}}", None),
    "$gt" := OperatorDoc("comparison", "Greater than", "{\"value\": {\"$gt\": 0}}", None),
    "$lte" := OperatorDoc("comparison", "Less than or equal", "{\"value\": {\"$lte\": 100}}", None),
    "$gte" := OperatorDoc("comparison", "Greater than or equal", "{\"value\": {\"$gte\": 0}}", None),
    "$in" := OperatorDoc("comparison", "Value in array", "{\"id\": {\"$in\": [1, 2, 3]}}", None),
    "$like" := OperatorDoc("comparison", "Wildcard match (* and ?)", "{\"name\": {\"$like\": \"Test*\"}}", Some(CaseInsensitiveHint)),
    "$between" := OperatorDoc("comparison", "Value between two values",
                              "{\"date\": {\"$between\": [\"2023-01-01\", \"2023-12-31\"]}}", None),
    "$null" := OperatorDoc("comparison", "Is null value", "{\"field\": {\"$null\": 1}}", None),
    "$notnull" := OperatorDoc("comparison", "Is not null value", "{\"field\": {\"$notnull\": 1}}", None),
    "$and" := OperatorDoc("logical", "Logical AND - all must be true",
                          "{\"$and\": [{\"status\": \"active\"}, {\"value\": {\"$gt\": 0}}]}", None),
    "$or" := OperatorDoc("logical", "Logical OR - at least one true",
                         "{\"$or\": [{\"status\": \"active\"}, {\"status\": \"pending\"}]}", None),
    "$not" := OperatorDoc("logical", "Logical NOT", "{\"$not\": {\"status\": \"inactive\"}}", None),
    "$distinct" := OperatorDoc("aggregate", "Get distinct values", "{\"$attributes\": {\"name\": {\"$distinct\": 1}}}", None),
    "$min" := OperatorDoc("aggregate", "Get minimum value", "{\"$attributes\": {\"value\": {\"$min\": 1}}}", None),
    "$max" := OperatorDoc("aggregate", "Get maximum value", "{\"$attributes\": {\"value\": {\"$max\": 1}}}", None)
  ]

  /** `JaquelValidator.get_operator_info` */
  function GetOperatorInfo(operator: string): (r: OperatorInfo)
    ensures r.NotDocumented? <==> operator !in OperatorDocs
    ensures r.NotDocumented? ==> r.error == "Unknown operator: " + operator
    ensures r.Documented? ==> operator in AllOperators
  {
    if operator !in OperatorDocs then NotDocumented("Unknown operator: " + operator)
    else Documented(OperatorDocs[operator])
  }

  lemma {:induction false} DocumentedInVocabulary(operator: string)
    requires operator in OperatorDocs
    ensures operator in AllOperators
  {
  }

  lemma {:induction false} DocumentedAsComparison(operator: string)
    requires operator in OperatorDocs && OperatorDocs[operator].category == "comparison"
    ensures operator in ComparisonOperators
  {
  }

  lemma {:induction false} ComparisonDocumented(operator: string)
    requires operator in OperatorDocs && operator in ComparisonOperators
    ensures OperatorDocs[operator].category == "comparison"
  {
  }

  /** Every documented operator is in the vocabulary, and the comparison ones are exactly those in that set. */
  lemma {:induction false} DocumentedComparisonOperators(operator: string)
    requires operator in OperatorDocs
    ensures operator in AllOperators
    ensures OperatorDocs[operator].category == "comparison" <==> operator in ComparisonOperators
  {
    DocumentedInVocabulary(operator);
    if OperatorDocs[operator].category == "comparison" {
      DocumentedAsComparison(operator);
    }
    if operator in ComparisonOperators {
      ComparisonDocumented(operator);
    }
  }

  lemma {:induction false} DocumentedAsLogical(operator: string)
    requires operator in OperatorDocs
    ensures OperatorDocs[operator].category == "logical" <==> operator in LogicalOperators
  {
  }

  lemma {:induction false} DocumentedAsAggregate(operator: string)
    requires operator in OperatorDocs
    ensures OperatorDocs[operator].category == "aggregate" <==> operator in AggregateFunctions
  {
  }

  /** The documented logical and aggregate operators are documented under their own category. */
  lemma {:induction false} DocumentedOtherOperators(operator: string)
    requires operator in OperatorDocs
    ensures OperatorDocs[operator].category == "logical" <==> operator in LogicalOperators
    ensures OperatorDocs[operator].category == "aggregate" <==> operator in AggregateFunctions
  {
    DocumentedAsLogical(operator);
    DocumentedAsAggregate(operator);
  }

  // ---------------------------------------------------------------- suggest_simplifications

  /** The suggestions `suggest_simplifications` makes; `SimplificationText` gives their wording. */
  datatype Simplification =
    | IdShorthand(entity: string, id: Value)
    | IdEqShorthand(eqValue: Value)
    | NestedTestId(testId: Value)
    | EmptyAttributes
    | AttributeEq(name: string, eqValue: Value)

  function SimplificationText(s: Simplification): string {
    match s
    case IdShorthand(e, id) =>
      "Can simplify: {\"id\": " + ToStr(id) + "} \U{2192} " + ToStr(id)
      + "\n  Shortened: {\"" + e + "\": " + ToStr(id) + "}"
    case IdEqShorthand(v) => "Can simplify: {\"id\": {\"$eq\": " + ToStr(v) + "}} \U{2192} " + ToStr(v)
    case NestedTestId(t) =>
      "Can simplify nested: {\"test\": {\"id\": " + ToStr(t) + "}} \U{2192} {\"test.id\": " + ToStr(t) + "}"
    case EmptyAttributes => "$attributes is empty - consider removing it to get all attributes"
    case AttributeEq(a, v) =>
      "Can simplify attribute: {\"" + a + "\": {\"$eq\": " + ToStr(v) + "}} \U{2192} {\"" + a + "\": " + ToStr(v) + "}"
  }

  /** The entity filter has the shape the id shorthand applies to. */
  predicate HasIdShape(filter: Value) {
    && filter.Object? && |filter.members| == 1 && filter.members[0].key == "id"
    && var id := filter.members[0].value;
       IsPyInt(id) || id.Str? || (id.Object? && HasKey(id.members, "$eq"))
  }

  function IdSuggestions(entity: string, filter: seq<Member>): seq<Simplification> {
    if |filter| == 1 && HasKey(filter, "id") then
      var id := GetOrNull(filter, "id");
      if IsPyInt(id) || id.Str? then [IdShorthand(entity, id)]
      else if id.Object? && HasKey(id.members, "$eq") then [IdEqShorthand(GetOrNull(id.members, "$eq"))]
      else []
    else []
  }

  function NestedSuggestions(filter: seq<Member>): seq<Simplification> {
    match Get(filter, "test")
    case Some(Object(nested)) =>
      if |nested| == 1 && HasKey(nested, "id") then [NestedTestId(GetOrNull(nested, "id"))] else []
    case _ => []
  }

  function FilterSuggestions(entity: string, filter: Value): seq<Simplification> {
    if filter.Object? then IdSuggestions(entity, filter.members) + NestedSuggestions(filter.members) else []
  }

  /** `{"$eq": v}` and nothing else. */
  predicate IsVerboseEq(v: Value) {
    v.Object? && HasKey(v.members, "$eq") && |v.members| == 1
  }

  function AttributeEqSuggestion(m: Member): seq<Simplification> {
    if IsVerboseEq(m.value) then [AttributeEq(m.key, GetOrNull(m.value.members, "$eq"))] else []
  }

  /** Attribute `k` is written `{"$eq": v}` in `attrs`. */
  predicate VerboseAttribute(attrs: seq<Member>, k: string, v: Value) {
    exists i :: 0 <= i < |attrs| && attrs[i].key == k && IsVerboseEq(attrs[i].value)
                && GetOrNull(attrs[i].value.members, "$eq") == v
  }

  /** The loop over `$attributes` items, in dict order. */
  function AttributeEqSuggestions(attrs: seq<Member>): (r: seq<Simplification>)
    ensures |r| <= |attrs|
    ensures forall s :: s in r ==> s.AttributeEq?
  {
    if attrs == [] then []
    else AttributeEqSuggestions(attrs[..|attrs| - 1]) + AttributeEqSuggestion(attrs[|attrs| - 1])
  }

  /** An attribute gets the `$eq` suggestion, with its value, exactly when it is written `{"$eq": v}`. */
  lemma {:induction false} AttributeEqExactly(attrs: seq<Member>, k: string, v: Value)
    ensures AttributeEq(k, v) in AttributeEqSuggestions(attrs) <==> VerboseAttribute(attrs, k, v)
  {
    if attrs != [] {
      var init, last := attrs[..|attrs| - 1], attrs[|attrs| - 1];
      AttributeEqExactly(init, k, v);
      if VerboseAttribute(init, k, v) {
        var i :| 0 <= i < |init| && init[i].key == k && IsVerboseEq(init[i].value)
                 && GetOrNull(init[i].value.members, "$eq") == v;
        assert attrs[i] == init[i];
      }
      if VerboseAttribute(attrs, k, v) && !VerboseAttribute(init, k, v) {
        var i :| 0 <= i < |attrs| && attrs[i].key == k && IsVerboseEq(attrs[i].value)
                 && GetOrNull(attrs[i].value.members, "$eq") == v;
        assert i == |attrs| - 1;
      }
      if AttributeEq(k, v) in AttributeEqSuggestion(last) {
        assert attrs[|attrs| - 1] == last;
      }
    }
  }

  /** No entity, an empty entity name, or an entity value of None: nothing to suggest. */
  predicate NoEntityToSimplify(ms: seq<Member>) {
    FirstEntityMember(ms).None? || FirstEntityMember(ms).value.key == "" || FirstEntityMember(ms).value.value.Null?
  }

  /** What `suggest_simplifications` returns, or the AttributeError it raises. */
  function Simplifications(query: Value): (r: Result<seq<Simplification>>)
    ensures !query.Object? ==> r == Err(NoAttribute(query, "items"))
    ensures query.Object? && NoEntityToSimplify(query.members) ==> r == Ok([])
    ensures query.Object? ==>
              (r.Err? <==> !NoEntityToSimplify(query.members) && HasKey(query.members, "$attributes")
                           && !GetOrNull(query.members, "$attributes").Object?)
    ensures query.Object? && r.Err? ==> r.error == NoAttribute(GetOrNull(query.members, "$attributes"), "items")
  {
    if !query.Object? then Err(NoAttribute(query, "items"))
    else
      var ms := query.members;
      match FirstEntityMember(ms)
      case None => Ok([])
      case Some(m) =>
        if m.key == "" || m.value.Null? then Ok([])
        else
          var front := FilterSuggestions(m.key, m.value) + AttributesHint(ms);
          match Get(ms, "$attributes")
          case None => Ok(front)
          case Some(attrs) =>
            if attrs.Object? then Ok(front + AttributeEqSuggestions(attrs.members))
            else Err(NoAttribute(attrs, "items"))
  }

  function AttributesHint(ms: seq<Member>): seq<Simplification> {
    if Get(ms, "$attributes") == Some(Object([])) then [EmptyAttributes] else []
  }

  /** The shorthand suggestions for the entity filter, before `$attributes` is looked at. */
  method SuggestForFilter(entity: string, entityQuery: Value) returns (suggestions: seq<Simplification>)
    ensures suggestions == FilterSuggestions(entity, entityQuery)
  {
    suggestions := [];
    if entityQuery.Object? {
      var filter := entityQuery.members;
      if |filter| == 1 && HasKey(filter, "id") {
        var id := GetOrNull(filter, "id");
        if IsPyInt(id) || id.Str? {
          suggestions := suggestions + [IdShorthand(entity, id)];
        } else if id.Object? && HasKey(id.members, "$eq") {
          suggestions := suggestions + [IdEqShorthand(GetOrNull(id.members, "$eq"))];
        }
      }
      if HasKey(filter, "test") && GetOrNull(filter, "test").Object? {
        var nested := GetOrNull(filter, "test").members;
        if |nested| == 1 && HasKey(nested, "id") {
          suggestions := suggestions + [NestedTestId(GetOrNull(nested, "id"))];
        }
      }
    }
  }

  /** The loop over the `$attributes` items that spots `{"$eq": v}` written out in full. */
  method CollectAttributeEqSuggestions(items: seq<Member>) returns (suggestions: seq<Simplification>)
    ensures suggestions == AttributeEqSuggestions(items)
  {
    suggestions := [];
    var i := 0;
    while i < |items|
      invariant 0 <= i <= |items|
      invariant suggestions == AttributeEqSuggestions(items[..i])
    {
      assert items[..i + 1][..i] == items[..i];
      var v := items[i].value;
      if v.Object? && HasKey(v.members, "$eq") && |v.members| == 1 {
        suggestions := suggestions + [AttributeEq(items[i].key, GetOrNull(v.members, "$eq"))];
      }
      i := i + 1;
    }
    assert items[..|items|] == items;
  }

  /** `JaquelOptimizer.suggest_simplifications` */
  method SuggestSimplifications(query: Value) returns (r: Result<seq<Simplification>>)
    ensures r == Simplifications(query)
  {
    if !query.Object? {
      return Err(NoAttribute(query, "items"));
    }
    var ms := query.members;
    var found := FindEntity(ms);
    if found.None? || found.value.key == "" || found.value.value.Null? {
      return Ok([]);
    }
    var suggestions := SuggestForFilter(found.value.key, found.value.value);
    var attrs := Get(ms, "$attributes");
    if attrs == Some(Object([])) {
      suggestions := suggestions + [EmptyAttributes];
    }
    assert suggestions == FilterSuggestions(found.value.key, found.value.value) + AttributesHint(ms);
    if attrs.Some? {
      if !attrs.value.Object? {
        return Err(NoAttribute(attrs.value, "items"));
      }
      var verbose := CollectAttributeEqSuggestions(attrs.value.members);
      suggestions := suggestions + verbose;
    }
    r := Ok(suggestions);
  }

  /** A suggestion that proposes replacing the entity's id filter by the bare id. */
  predicate IsIdShorthand(s: Simplification) {
    s.IdShorthand? || s.IdEqShorthand?
  }

  /** Only the id check can produce an id shorthand, and it does exactly for the id shape. */
  lemma {:induction false} FilterSuggestionsId(entity: string, filter: Value)
    ensures (exists s :: s in FilterSuggestions(entity, filter) && IsIdShorthand(s)) <==> HasIdShape(filter)
  {
    if filter.Object? {
      var f := filter.members;
      assert forall s :: s in NestedSuggestions(f) ==> s.NestedTestId?;
      if |f| == 1 && HasKey(f, "id") {
        assert f[0].key == "id";
        assert GetOrNull(f, "id") == f[0].value;
      }
      if |f| == 1 && f[0].key == "id" {
        assert HasKey(f, "id");
      }
      if HasIdShape(filter) {
        assert IdSuggestions(entity, f)[0] in FilterSuggestions(entity, filter);
      }
    }
  }

  /**
   * An id-shorthand suggestion appears exactly when the entity filter is a
   * one-key `{"id": scalar}` or `{"id": {"$eq": v, ...}}`.
   */
  lemma {:induction false} IdShorthandExactly(ms: seq<Member>)
    requires Simplifications(Object(ms)).Ok?
    requires FirstEntityMember(ms).Some? && FirstEntityMember(ms).value.key != ""
    ensures (exists s :: s in Simplifications(Object(ms)).value && IsIdShorthand(s))
            <==> HasIdShape(FirstEntityMember(ms).value.value)
  {
    var m := FirstEntityMember(ms).value;
    var r := Simplifications(Object(ms)).value;
    if !m.value.Null? {
      var tail := match Get(ms, "$attributes")
                  case Some(Object(attrs)) => AttributeEqSuggestions(attrs)
                  case _ => [];
      assert r == FilterSuggestions(m.key, m.value) + AttributesHint(ms) + tail;
      assert forall s :: s in AttributesHint(ms) + tail ==> !IsIdShorthand(s);
      FilterSuggestionsId(m.key, m.value);
    }
  }

  /** The three groups of suggestions, in the order the code appends them. */
  lemma {:induction false} SimplificationsParts(ms: seq<Member>)
    requires Simplifications(Object(ms)).Ok? && !NoEntityToSimplify(ms)
    ensures var m := FirstEntityMember(ms).value;
            var attrs := GetOrNull(ms, "$attributes");
            Simplifications(Object(ms)).value
            == FilterSuggestions(m.key, m.value) + AttributesHint(ms)
               + (if HasKey(ms, "$attributes") && attrs.Object? then AttributeEqSuggestions(attrs.members) else [])
  {
  }

  /** The test-id filter `{"test": {"id": t}}`, with nothing else inside `test`. */
  predicate NestedTestIdShape(filter: Value, t: Value) {
    && filter.Object? && HasKey(filter.members, "test")
    && var nested := GetOrNull(filter.members, "test");
       nested.Object? && |nested.members| == 1 && HasKey(nested.members, "id") && GetOrNull(nested.members, "id") == t
  }

  /** The empty-`$attributes` hint appears exactly when there is an entity to simplify and `$attributes == {}`. */
  lemma {:induction false} EmptyAttributesExactly(ms: seq<Member>)
    requires Simplifications(Object(ms)).Ok?
    ensures EmptyAttributes in Simplifications(Object(ms)).value
            <==> !NoEntityToSimplify(ms) && Get(ms, "$attributes") == Some(Object([]))
  {
    if !NoEntityToSimplify(ms) {
      SimplificationsParts(ms);
      var m := FirstEntityMember(ms).value;
      assert forall s :: s in FilterSuggestions(m.key, m.value) ==> !s.EmptyAttributes?;
    }
  }

  /** The nested test-id suggestion for `t` appears exactly when the entity filter holds `{"test": {"id": t}}`. */
  lemma {:induction false} NestedTestIdExactly(ms: seq<Member>, t: Value)
    requires Simplifications(Object(ms)).Ok?
    ensures NestedTestId(t) in Simplifications(Object(ms)).value
            <==> !NoEntityToSimplify(ms) && NestedTestIdShape(FirstEntityMember(ms).value.value, t)
  {
    if !NoEntityToSimplify(ms) {
      SimplificationsParts(ms);
      var m := FirstEntityMember(ms).value;
      if m.value.Object? {
        var f := m.value.members;
        assert forall s :: s in IdSuggestions(m.key, f) ==> !s.NestedTestId?;
        assert HasKey(f, "test") <==> Get(f, "test").Some?;
      }
    }
  }

  /**
   * The `$eq` suggestion for attribute `k` with value `v` appears exactly
   * when there is an entity to simplify and `$attributes` writes `k` as `{"$eq": v}`.
   */
  lemma {:induction false} AttributeEqInResult(ms: seq<Member>, k: string, v: Value)
    requires Simplifications(Object(ms)).Ok?
    ensures AttributeEq(k, v) in Simplifications(Object(ms)).value
            <==> && !NoEntityToSimplify(ms) && HasKey(ms, "$attributes") && GetOrNull(ms, "$attributes").Object?
                 && VerboseAttribute(GetOrNull(ms, "$attributes").members, k, v)
  {
    if !NoEntityToSimplify(ms) {
      SimplificationsParts(ms);
      var m := FirstEntityMember(ms).value;
      assert forall s :: s in FilterSuggestions(m.key, m.value) + AttributesHint(ms) ==> !s.AttributeEq?;
      var attrs := GetOrNull(ms, "$attributes");
      if HasKey(ms, "$attributes") && attrs.Object? {
        AttributeEqExactly(attrs.members, k, v);
      }
    }
  }

  /** `{"AoUnit": {"id": {"$eq": 123}}}` gets one suggestion, the bare value without a shortened query. */
  lemma {:induction false} EqIdSuggestion()
    ensures Simplifications(Object([Member("AoUnit", Object([Member("id", Object([Member("$eq", Int(123))]))]))]))
            == Ok([IdEqShorthand(Int(123))])
  {
    var eq := [Member("$eq", Int(123))];
    var filter := [Member("id", Object(eq))];
    var ms := [Member("AoUnit", Object(filter))];
    assert Get(filter, "id") == Some(Object(eq));
    assert Get(eq, "$eq") == Some(Int(123));
    assert Get(filter, "test") == None;
    assert Get(ms, "$attributes") == None;
    StartsWithChar("AoUnit", '$');
    assert FirstEntityMember(ms) == Some(Member("AoUnit", Object(filter)));
    assert IdSuggestions("AoUnit", filter) == [IdEqShorthand(Int(123))];
    assert NestedSuggestions(filter) == [];
    assert FilterSuggestions("AoUnit", Object(filter)) == [IdEqShorthand(Int(123))];
    assert AttributesHint(ms) == [];
  }
}
