/**
 * The filter-building tools: `build_filter_condition` wraps one operator
 * around a field, `merge_filter_conditions` puts a list of conditions under
 * one logical operator.  Both answer with a record, never by raising: a
 * `ValueError` raised by a guard becomes an `{error, error_type}` record.
 */
module FilterTools {
  import opened Text
  import opened Json
  import Validators

  /** `json_response(data)` or `error_response(str(e), type(e).__name__)`, before JSON encoding. */
  datatype ToolResponse =
    | JsonResponse(data: Value)
    | ErrorResponse(error: string, errorType: string)

  /** `value and isinstance(value, str) and value.strip()` */
  predicate NonBlankString(v: Value) {
    v.Str? && !IsBlank(v.s)
  }

  const FieldError := "field must be a non-empty string"
  const OperatorError := "operator must be a non-empty string"
  const NothingToMerge := "No conditions to merge"

  /** `FilterToolHandler.build_filter_condition` */
  function BuildFilterCondition(arguments: seq<Member>): (r: ToolResponse)
    ensures r.ErrorResponse? ==> r.errorType == "ValueError"
    ensures !NonBlankString(GetOrNull(arguments, "field")) ==> r == ErrorResponse(FieldError, "ValueError")
    ensures NonBlankString(GetOrNull(arguments, "field")) && !NonBlankString(GetOrNull(arguments, "operator")) ==>
              r == ErrorResponse(OperatorError, "ValueError")
    ensures r.JsonResponse? <==>
              NonBlankString(GetOrNull(arguments, "field")) && NonBlankString(GetOrNull(arguments, "operator"))
              && GetOrNull(arguments, "operator").s in Validators.AllOperators
    ensures r.JsonResponse? ==>
              r.data == Object([Member(GetOrNull(arguments, "field").s,
                                       Object([Member(GetOrNull(arguments, "operator").s,
                                                      GetOrNull(arguments, "value"))]))])
  {
    var field := GetOrNull(arguments, "field");
    if !NonBlankString(field) then ErrorResponse(FieldError, "ValueError")
    else
      var operator := GetOrNull(arguments, "operator");
      var value := GetOrNull(arguments, "value");
      if !NonBlankString(operator) then ErrorResponse(OperatorError, "ValueError")
      else if operator.s !in Validators.AllOperators then
        ErrorResponse("Unknown operator: " + operator.s, "ValueError")
      else JsonResponse(Object([Member(field.s, Object([Member(operator.s, value)]))]))
  }

  /** A missing `"value"` is passed on as `None`. */
  lemma {:induction false} MissingValueIsNull(field: string, operator: string)
    requires !IsBlank(field) && !IsBlank(operator) && operator in Validators.AllOperators
    ensures BuildFilterCondition([Member("field", Str(field)), Member("operator", Str(operator))])
            == JsonResponse(Object([Member(field, Object([Member(operator, Null)]))]))
  {
    var args := [Member("field", Str(field)), Member("operator", Str(operator))];
    assert "field"[0] != "operator"[0] && "field"[0] != "value"[0] && "operator"[0] != "value"[0];
    assert Get(args, "field") == Some(Str(field));
    assert Get(args[1..], "operator") == Some(Str(operator));
    assert Get(args, "operator") == Some(Str(operator));
    assert Get(args[1..], "value") == None;
    assert Get(args, "value") == None;
  }

  /**
   * A condition built with a comparison operator on a plain field passes
   * `validate_filter_condition` unless a list operator was given a non-list.
   */
  lemma {:induction false} BuiltComparisonValidates(arguments: seq<Member>)
    requires BuildFilterCondition(arguments).JsonResponse?
    requires Validators.IsEntityKey(GetOrNull(arguments, "field").s)
    requires GetOrNull(arguments, "operator").s in Validators.ComparisonOperators
    ensures var op := GetOrNull(arguments, "operator").s;
            Validators.ValidateFilterCondition(BuildFilterCondition(arguments).data).valid
            <==> !((op == "$between" || op == "$in" || op == "$notinset") && !GetOrNull(arguments, "value").List?)
  {
    var field := GetOrNull(arguments, "field").s;
    var op := GetOrNull(arguments, "operator").s;
    var value := GetOrNull(arguments, "value");
    var path := " for field '" + field + "'";
    var inner := Member(op, value);
    StartsWithChar(op, '$');
    assert StartsWith(op, "$");
    assert op !in Validators.LogicalOperators;
    var m := Member(field, Object([inner]));
    assert Validators.CheckMember(m, "") == Validators.CheckMembers([inner], path);
    assert Validators.CheckMembers([inner], path) == Validators.Join2(Validators.CheckMember(inner, path), Validators.NoFindings);
    if op == "$null" || op == "$notnull" {
      Validators.NullOperatorIsIssue(op, value, path);
    } else if op == "$between" || op == "$in" || op == "$notinset" {
      Validators.ListOperatorsNeedList(op, value, path);
    } else {
      assert Validators.CheckMember(inner, path) == Validators.NoFindings;
    }
    assert Validators.CheckMembers([m], "") == Validators.Join2(Validators.CheckMember(m, ""), Validators.NoFindings);
  }

  /** `FilterToolHandler.merge_filter_conditions`; the operator is not restricted to `$and`/`$or`. */
  function MergeFilterConditions(arguments: seq<Member>): (r: ToolResponse)
    ensures r.ErrorResponse? ==> r.errorType == "ValueError"
    ensures r.JsonResponse? <==>
              NonBlankString(GetOr(arguments, "operator", Str("$and"))) && Truthy(GetOr(arguments, "conditions", List([])))
    ensures !NonBlankString(GetOr(arguments, "operator", Str("$and"))) ==> r == ErrorResponse(OperatorError, "ValueError")
    ensures NonBlankString(GetOr(arguments, "operator", Str("$and"))) && !Truthy(GetOr(arguments, "conditions", List([]))) ==>
              r == ErrorResponse(NothingToMerge, "ValueError")
    ensures r.JsonResponse? ==>
              r.data == Object([Member(GetOr(arguments, "operator", Str("$and")).s, GetOr(arguments, "conditions", List([])))])
  {
    var conditions := GetOr(arguments, "conditions", List([]));
    var operator := GetOr(arguments, "operator", Str("$and"));
    if !NonBlankString(operator) then ErrorResponse(OperatorError, "ValueError")
    else if !Truthy(conditions) then ErrorResponse(NothingToMerge, "ValueError")
    else JsonResponse(Object([Member(operator.s, conditions)]))
  }

  /** Without an `"operator"` argument the conditions are joined with `$and`. */
  lemma {:induction false} MergeDefaultsToAnd(conditions: seq<Value>)
    requires conditions != []
    ensures MergeFilterConditions([Member("conditions", List(conditions))])
            == JsonResponse(Object([Member("$and", List(conditions))]))
  {
    var args := [Member("conditions", List(conditions))];
    assert "conditions"[0] != "operator"[0];
    assert Get(args, "operator") == None;
    assert Get(args, "conditions") == Some(List(conditions));
    assert !IsBlank("$and") by {
      assert !IsSpace("$and"[0]);
    }
  }
}
