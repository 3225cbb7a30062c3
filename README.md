# odsbox-jaquel-mcp core, modelled in Dafny

This project models the deterministic core of the odsbox Jaquel MCP server. Jaquel is the JSON query
language of ASAM ODS servers. The core consists of:

- the query validator and optimiser (`JaquelValidator`, `JaquelOptimizer`);
- the query templates, explainers and fix suggestions (`JaquelExamples`, `QueryDebugger`);
- the filter builder tool (`FilterToolHandler`);
- the measurement hierarchy explorer over query results (`MeasurementHierarchyExplorer`);
- the case-insensitive entity description table (`EntityDescriptions`);
- the schema inspector's classification rules and hierarchy walk (`SchemaInspector`);
- plot metadata preparation (`MeasurementMetadataExtractor`, `MeasurementDataPreparator`).

Python values are modelled by the `Json.Value` datatype: `Null`, `Bool`, `Int`, `Float`, `Str`, `List`
and `Object`. An `Object` is an ordered sequence of members, so dict insertion order is kept. The
validator depends on it: the first non-`$` key names the entity. Python's rules are written out
where the core relies on them:

- `bool` is an `int` (`Json.IsPyInt`), and `True == 1` (`Json.EqualsOne`).
- Truthiness is `Json.Truthy`; `str()` and `repr()` are `Json.ToStr` and `Json.Repr`.
- `d[k] = v` replaces a key in place or appends it (`Json.DictSet`), and lookup is `Json.Get`.
- An exception that escapes a function becomes `Err(PyError(kind, message))`, with CPython's
  message where it is fixed, such as `'list' object has no attribute 'get'`.

Messages that list-building code appends are datatypes (`QueryMessage`, `FilterMessage`,
`Simplification`). A `...Text` function gives each message's exact wording.

Modules and the files they model (paths relative to the repository root):

| module | file | form |
|---|---|---|
| `Text`, `Json`, `Sorting` | Python string, dict and sort semantics used throughout | functions and lemmas; `Sorting.SortedSet` is a loop |
| `Validators` | `odsbox_jaquel_mcp/validators.py` | spec functions, loop methods proved equal to them |
| `Queries` | `odsbox_jaquel_mcp/queries.py` | table functions; loop methods for the explainer and the debugger |
| `FilterTools` | `odsbox_jaquel_mcp/tools/filter_tools.py` | functions |
| `Measurements`, `MeasurementViews`, `MeasurementSummary` | `odsbox_jaquel_mcp/measurement_queries.py` | filter functions; loop methods for the list/dict/set builders |
| `EntityDescriptions` | `odsbox_jaquel_mcp/schemas_entity_descriptions.py` | functions over the constant table |
| `Schemas`, `SchemaHierarchy` | `odsbox_jaquel_mcp/schemas.py` | functions over an abstract model cache; the hierarchy walk is a `while` loop |
| `DataPreparation` | `odsbox_jaquel_mcp/data_preparation.py` | functions over row sequences; loop methods for the title lookup and the item list |

Every loop method is proved equal to a specification function (`ensures r == Spec(inputs)`). The
properties are proved about that function, as `ensures` clauses and lemmas.

## Model

| member | source | states |
|---|---|---|
| Validators.FirstEntityMember | odsbox_jaquel_mcp/validators.py:74-79 | the member found has a key that does not start with `$` |
| Validators.FirstEntityMemberIsFirst | odsbox_jaquel_mcp/validators.py:74-79 | there is no entity exactly when every key starts with `$`; otherwise the entity is the member at the first non-`$` position, and every earlier key is a `$` key |
| Validators.FindEntity | odsbox_jaquel_mcp/validators.py:75-79 | the loop with `break` returns the first non-`$` member |
| Validators.EntityValueErrors | odsbox_jaquel_mcp/validators.py:86-93 | "cannot be None" is reported exactly for None; "must be dict, int, or string" exactly for a value that is neither None nor a dict, int (bool included) or str; nothing else is reported |
| Validators.NotDictErrors | odsbox_jaquel_mcp/validators.py:102-120 | the one message appears exactly when the key is present and its value is not a dict |
| Validators.IntOptionErrors | odsbox_jaquel_mcp/validators.py:125-134 | the message appears exactly when `opts.get(key)` is not None and not an int (bool counts as int) |
| Validators.OptionsErrors | odsbox_jaquel_mcp/validators.py:122-134 | only the two option errors occur; for a dict `$options`, each appears exactly when its key holds a non-None non-int |
| Validators.DirectiveErrors | odsbox_jaquel_mcp/validators.py:102-120 | each of the `$attributes`, `$orderby`, `$groupby` errors appears exactly when that key is present with a non-dict value, and no other error appears |
| Validators.Validation | odsbox_jaquel_mcp/validators.py:60-136 | `valid` iff no errors; a non-dict gives exactly the one "must be a dictionary" error with no warnings or suggestions; with no entity, or an empty first non-`$` key, exactly the one entity-name error and nothing else |
| Validators.CollectSpecialKeyWarnings | odsbox_jaquel_mcp/validators.py:96-99 | the warnings loop yields one "Unknown special key" warning per `$` key outside SPECIAL_KEYS, in key order |
| Validators.CheckDirectives | odsbox_jaquel_mcp/validators.py:101-120 | the directive checks produce the errors of `DirectiveErrors` and the empty-`$attributes` suggestion |
| Validators.CheckOptions | odsbox_jaquel_mcp/validators.py:122-134 | the `$options` checks produce the errors of `OptionsErrors` |
| Validators.ValidateQuery | odsbox_jaquel_mcp/validators.py:60-136 | the method returns exactly `Validation(query)` |
| Validators.SpecialKeyWarningsConcat | odsbox_jaquel_mcp/validators.py:96-99 | the warnings of two runs of keys are the first run's followed by the second's |
| Validators.FirstEntityInsertDirective | odsbox_jaquel_mcp/validators.py:75-79 | inserting a `$` key anywhere never changes which member is the entity |
| Validators.GetInsertOther | odsbox_jaquel_mcp/validators.py:87 | inserting a key anywhere leaves every other key's lookup unchanged |
| Validators.ShapeErrorsInsert | odsbox_jaquel_mcp/validators.py:101-134 | inserting a `$` key that is none of the checked directives leaves the shape errors of the query unchanged |
| Validators.WarningsInsert | odsbox_jaquel_mcp/validators.py:96-99 | an unknown `$` key inserted between two runs of keys puts its one warning between their warnings |
| Validators.UnknownSpecialKeyOnlyWarns | odsbox_jaquel_mcp/validators.py:96-99 | an unknown top-level `$` key inserted at any position keeps validity, errors and suggestions, and adds exactly its one warning at its own position among the other key warnings (no warnings at all when the query fails its entity check) |
| Validators.EntityValueChecked | odsbox_jaquel_mcp/validators.py:86-93 | in the whole result, the None error appears iff the entity's value is None, and the wrong-type error iff it is neither None nor dict/int/str |
| Validators.ShapeChecked | odsbox_jaquel_mcp/validators.py:102-120 | in the whole result, each directive error appears iff its key holds a non-dict |
| Validators.RowOptionsChecked | odsbox_jaquel_mcp/validators.py:122-134 | with a dict `$options`, the `$rowlimit`/`$rowskip` error appears iff that option is present, not None and not an int |
| Validators.ValidateFilterCondition | odsbox_jaquel_mcp/validators.py:139-187 | `valid` iff no errors; a non-dict gives exactly "Condition must be a dictionary"; a dict is valid iff none of its members yields an error |
| Validators.MembersValidIffEach | odsbox_jaquel_mcp/validators.py:151-183 | a dict's walk has no error iff no member's check has one |
| Validators.CheckMembersCons | odsbox_jaquel_mcp/validators.py:153 | the findings of a dict are the first member's followed by the rest's, in dict order |
| Validators.MemberFindingsKept | odsbox_jaquel_mcp/validators.py:151-183 | every error and issue of a member is among its dict's |
| Validators.UnknownOperatorIsError | odsbox_jaquel_mcp/validators.py:154-156 | a `$` key outside ALL_OPERATORS anywhere at top level yields "Unknown operator" and makes the condition invalid |
| Validators.NullOperatorIsIssue | odsbox_jaquel_mcp/validators.py:173-176 | `$null`/`$notnull` never yield an error; they yield one issue exactly when the value is not 1 (`True` counts as 1) |
| Validators.ListOperatorsNeedList | odsbox_jaquel_mcp/validators.py:177-180 | `$between`/`$in`/`$notinset` yield one "requires a list value" error for a non-list and nothing for any list |
| Validators.LogicalOperatorsShape | odsbox_jaquel_mcp/validators.py:157-167 | `$not` with a non-dict, or `$and`/`$or` with a non-list, yields exactly one error and no issue |
| Validators.NonDictItemsSkipped | odsbox_jaquel_mcp/validators.py:169-171 | list items that are not dicts contribute no finding |
| Validators.BetweenArityNotChecked | odsbox_jaquel_mcp/validators.py:177-180 | a one-element `$between` passes both validators |
| Validators.GetOperatorInfo | odsbox_jaquel_mcp/validators.py:190-285 | not documented iff the operator is outside the 17-entry table, with error "Unknown operator: X"; every documented operator is in ALL_OPERATORS |
| Validators.DocumentedInVocabulary | odsbox_jaquel_mcp/validators.py:192-280 | every documented operator lies in ALL_OPERATORS |
| Validators.DocumentedAsComparison | odsbox_jaquel_mcp/validators.py:192-249 | an operator documented as "comparison" is in COMPARISON_OPERATORS |
| Validators.ComparisonDocumented | odsbox_jaquel_mcp/validators.py:192-249 | a documented operator in COMPARISON_OPERATORS is documented as "comparison" |
| Validators.DocumentedComparisonOperators | odsbox_jaquel_mcp/validators.py:192-280 | among documented operators, category "comparison" holds iff the operator is in COMPARISON_OPERATORS |
| Validators.DocumentedAsLogical | odsbox_jaquel_mcp/validators.py:250-264 | among documented operators, category "logical" holds iff the operator is in LOGICAL_OPERATORS |
| Validators.DocumentedAsAggregate | odsbox_jaquel_mcp/validators.py:265-279 | among documented operators, category "aggregate" holds iff the operator is in AGGREGATE_FUNCTIONS |
| Validators.DocumentedOtherOperators | odsbox_jaquel_mcp/validators.py:250-279 | the documented logical and aggregate operators are exactly those of their sets |
| Validators.AttributeEqSuggestions | odsbox_jaquel_mcp/validators.py:342-352 | at most one suggestion per attribute, each an attribute-`$eq` suggestion |
| Validators.AttributeEqExactly | odsbox_jaquel_mcp/validators.py:342-352 | attribute `k` gets the suggestion with value `v` exactly when it is written `{"$eq": v}` with no other key |
| Validators.Simplifications | odsbox_jaquel_mcp/validators.py:292-354 | a non-dict raises AttributeError on `.items`; no entity, an empty entity name or a None entity value gives []; otherwise it raises exactly when `$attributes` is present and not a dict, with the AttributeError for that value |
| Validators.SimplificationsParts | odsbox_jaquel_mcp/validators.py:312-354 | the suggestions are the entity-filter ones, then the empty-`$attributes` hint, then the attribute `$eq` ones |
| Validators.EmptyAttributesExactly | odsbox_jaquel_mcp/validators.py:336-339 | the empty-`$attributes` hint appears exactly when there is an entity to simplify and `$attributes == {}` |
| Validators.NestedTestIdExactly | odsbox_jaquel_mcp/validators.py:328-334 | the nested test-id suggestion for `t` appears exactly when the entity filter holds `test` as a one-key dict `{"id": t}` |
| Validators.AttributeEqInResult | odsbox_jaquel_mcp/validators.py:341-352 | in the whole result, the `$eq` suggestion for `k` and `v` appears exactly when there is an entity to simplify and the `$attributes` dict writes `k` as `{"$eq": v}` |
| Validators.SuggestForFilter | odsbox_jaquel_mcp/validators.py:312-334 | the id and nested-test checks produce `FilterSuggestions` |
| Validators.CollectAttributeEqSuggestions | odsbox_jaquel_mcp/validators.py:342-352 | the loop over the `$attributes` items produces `AttributeEqSuggestions` |
| Validators.SuggestSimplifications | odsbox_jaquel_mcp/validators.py:292-354 | the method returns exactly `Simplifications(query)`, including the AttributeError of a non-dict `$attributes` |
| Validators.FilterSuggestionsId | odsbox_jaquel_mcp/validators.py:313-326 | an id-shorthand suggestion appears iff the filter is a one-key `{"id": int-or-str}` or `{"id": {... "$eq" ...}}` |
| Validators.IdShorthandExactly | odsbox_jaquel_mcp/validators.py:301-326 | for the entity found, the result holds an id-shorthand suggestion iff its filter has that shape |
| Validators.EqIdSuggestion | odsbox_jaquel_mcp/validators.py:323-326 | `{"AoUnit": {"id": {"$eq": 123}}}` gets exactly the one `$eq` shorthand suggestion |
| Queries.FindPattern | odsbox_jaquel_mcp/queries.py:113-115 | the lookup fails exactly when no entry has the name |
| Queries.GetPattern | odsbox_jaquel_mcp/queries.py:111-115 | the result is an error exactly for names not listed, with text "Unknown pattern: name" |
| Queries.ListPatterns | odsbox_jaquel_mcp/queries.py:117-120 | the result is the table's keys in declaration order |
| Queries.PatternNames | odsbox_jaquel_mcp/queries.py:120 | one name per entry, in order |
| Queries.FindDistinct | odsbox_jaquel_mcp/queries.py:113-115 | an entry whose name no earlier entry has is the one found |
| Queries.PatternNamesDistinct | odsbox_jaquel_mcp/queries.py:11-108 | the table has 8 patterns with pairwise distinct names |
| Queries.GetPatternListed | odsbox_jaquel_mcp/queries.py:111-120 | every listed name gets its own stored entry |
| Queries.GenerateQuerySkeleton | odsbox_jaquel_mcp/queries.py:123-145 | always a dict; an unknown operation gives `{"error": "Unknown operation: op"}` |
| Queries.SkeletonKeysDistinct | odsbox_jaquel_mcp/queries.py:130-140 | for a non-`$` entity name the skeleton's dict keys are distinct |
| Queries.SkeletonShape | odsbox_jaquel_mcp/queries.py:130-140 | the skeleton's members are the entity with its fixed filter (`{}`, `123`, `{"name": "SearchName"}`, `{"name": {"$like": "Search*"}}`) followed by the operation's directives |
| Queries.DefaultSkeletonRowlimit | odsbox_jaquel_mcp/queries.py:123-131 | the default operation's `$options` is `{"$rowlimit": 5}` |
| Queries.DirectivesAreDicts | odsbox_jaquel_mcp/queries.py:130-140 | dict-valued directives yield no directive error from `validate_query` |
| Queries.SkeletonOptions | odsbox_jaquel_mcp/queries.py:131-138 | the skeletons' `$options` produce no option error |
| Queries.SkeletonsValidate | odsbox_jaquel_mcp/queries.py:130-140 | every skeleton of a non-empty, non-`$` entity name passes `validate_query` |
| Queries.Subscript | odsbox_jaquel_mcp/queries.py:170 | `value[i]` succeeds exactly for a list or string with more than `i` elements |
| Queries.OperatorClause | odsbox_jaquel_mcp/queries.py:159-176 | an unrecognised operator adds nothing; a recognised one adds one clause; it fails only for `$between` with a value of fewer than two elements |
| Queries.ConditionClauses | odsbox_jaquel_mcp/queries.py:177-178 | a non-dict condition gives the one clause "field equals v" |
| Queries.Explanation | odsbox_jaquel_mcp/queries.py:152-180 | a non-dict filter raises AttributeError on `.items` |
| Queries.ExplainOperators | odsbox_jaquel_mcp/queries.py:158-176 | the inner loop produces `OperatorClauses` |
| Queries.OperatorClausesErr | odsbox_jaquel_mcp/queries.py:158-176 | once an operator raises, later operators do not change the outcome |
| Queries.FilterClausesErr | odsbox_jaquel_mcp/queries.py:156-178 | once a field raises, later fields do not change the outcome |
| Queries.ExplainFilter | odsbox_jaquel_mcp/queries.py:152-180 | the method returns exactly `Explanation(filter)` |
| Queries.OperatorClausesCount | odsbox_jaquel_mcp/queries.py:158-176 | one clause per recognised operator |
| Queries.FilterClausesCount | odsbox_jaquel_mcp/queries.py:156-180 | a successful explanation has one clause per recognised (field, operator) and one per non-dict condition |
| Queries.OperatorClausesOk | odsbox_jaquel_mcp/queries.py:169-170 | if every `$between` has two elements, the operator dict explains without error |
| Queries.FilterClausesOk | odsbox_jaquel_mcp/queries.py:156-180 | only a `$between` of fewer than two elements can make the explanation fail |
| Queries.EntityKeys | odsbox_jaquel_mcp/queries.py:188 | only non-`$` keys; empty iff the query has no entity; the first is the validator's entity |
| Queries.EntityStep | odsbox_jaquel_mcp/queries.py:189-190 | step 1 is present exactly when the query has a non-`$` key |
| Queries.FilterStep | odsbox_jaquel_mcp/queries.py:193-203 | step 2 is present exactly when the entity's value is truthy; it fails only when explaining that value fails |
| Queries.AttributesStep | odsbox_jaquel_mcp/queries.py:206-214 | step 3 is built exactly for a dict `$attributes` and carries number 3 |
| Queries.ColumnStep | odsbox_jaquel_mcp/queries.py:206-214 | step 3 is present exactly with `$attributes`, and fails exactly when that value is not a dict |
| Queries.DirectiveStep | odsbox_jaquel_mcp/queries.py:217-222 | steps 4 and 5 are present exactly when `$orderby` and `$options` are |
| Queries.StepByStep | odsbox_jaquel_mcp/queries.py:183-224 | a non-dict raises on `.keys`; a report repeats the query and has `total_steps == len(steps)`; a dict fails iff step 2 or step 3 fails |
| Queries.StepNumbers | odsbox_jaquel_mcp/queries.py:190-222 | the step numbers, in order |
| Queries.StepNumbersAppend | odsbox_jaquel_mcp/queries.py:190-222 | the numbers of concatenated steps concatenate |
| Queries.NumberedSteps | odsbox_jaquel_mcp/queries.py:190-222 | a single optional step contributes its number iff present |
| Queries.StepNumbering | odsbox_jaquel_mcp/queries.py:186-224 | the numbers are 1..5 in ascending order, each present iff its part of the query is |
| Queries.IdShorthandBreaksDebug | odsbox_jaquel_mcp/queries.py:193-200 | `{"AoUnit": 123}` raises AttributeError, because step 2 explains the int as a filter |
| Queries.DebugQueryStepByStep | odsbox_jaquel_mcp/queries.py:183-224 | the method returns exactly `StepByStep(query)` |
| Queries.SuggestFixesForIssue | odsbox_jaquel_mcp/queries.py:227-259 | never empty; exactly the 3 defaults when no keyword matches; otherwise 4, 2, 3 and 3 suggestions for each matching keyword, with the "no results" group first |
| Queries.FixesIgnoreCase | odsbox_jaquel_mcp/queries.py:231-246 | issues that differ only in letter case get the same fixes |
| FilterTools.BuildFilterCondition | odsbox_jaquel_mcp/tools/filter_tools.py:17-35 | every failure is a `ValueError` record, never raised; a missing, non-string or blank field gives the field error first; then a missing or blank operator gives the operator error; the result is a success exactly when both are non-blank strings and the operator is in ALL_OPERATORS, and then it is exactly `{field: {operator: value}}` |
| FilterTools.MissingValueIsNull | odsbox_jaquel_mcp/tools/filter_tools.py:24-32 | a missing `"value"` is passed through as None |
| FilterTools.BuiltComparisonValidates | odsbox_jaquel_mcp/tools/filter_tools.py:29-32 | a built comparison condition on a non-`$` field passes `validate_filter_condition` unless a list operator was given a non-list |
| FilterTools.MergeFilterConditions | odsbox_jaquel_mcp/tools/filter_tools.py:38-52 | the operator check runs before the empty-conditions check; the result is a success exactly when the operator (default `$and`) is a non-blank string and the conditions (default `[]`) are truthy, and then it is exactly `{operator: conditions}`, with any operator allowed |
| FilterTools.MergeDefaultsToAnd | odsbox_jaquel_mcp/tools/filter_tools.py:41-49 | without an operator argument, non-empty conditions are merged under `$and` |
| Measurements.ItemGetOr | odsbox_jaquel_mcp/measurement_queries.py:201 | `m.get(k, d)` succeeds exactly on a dict; otherwise it raises `'<type>' object has no attribute 'get'` |
| Measurements.TestNameOf | odsbox_jaquel_mcp/measurement_queries.py:89 | a non-dict raises on `.get`; a truthy `TestName` is the answer |
| Measurements.DictsAmong | odsbox_jaquel_mcp/measurement_queries.py:42-45 | the kept items are exactly the list's dict items |
| Measurements.Extracted | odsbox_jaquel_mcp/measurement_queries.py:16-62 | a non-dict query result gives [] |
| Measurements.ConcatMembers | odsbox_jaquel_mcp/measurement_queries.py:53-57 | an item is in the concatenation iff some part holds it |
| Measurements.TestsPartMembers | odsbox_jaquel_mcp/measurement_queries.py:50-57 | an item comes from the `"AoTest"` part iff it is in some test record's `"measurements"` list |
| Measurements.ExtractedMembers | odsbox_jaquel_mcp/measurement_queries.py:30-59 | a record is extracted iff it is in the `"measurements"` list, or is a dict of `"AoMeasurement"` (the list's dict items or the single dict), or is in some `"AoTest"` entry's `"measurements"` list |
| Measurements.CollectDicts | odsbox_jaquel_mcp/measurement_queries.py:43-45 | the loop over an `"AoMeasurement"` list produces `DictsAmong` |
| Measurements.CollectTestMeasurements | odsbox_jaquel_mcp/measurement_queries.py:53-57 | the loop over an `"AoTest"` list produces the tests' measurement lists in order |
| Measurements.ExtractMeasurementsFromQueryResult | odsbox_jaquel_mcp/measurement_queries.py:16-62 | the method returns exactly `Extracted(queryResult)`: the three parts in that order |
| Measurements.ColumnQuantities | odsbox_jaquel_mcp/measurement_queries.py:157-166 | at most one entry per column, each `{"name": n, "source": "submatrix_column"}` with a truthy name |
| Measurements.SubmatrixQuantities | odsbox_jaquel_mcp/measurement_queries.py:153-166 | every quantity found through submatrices has the submatrix-column shape |
| Measurements.FallbackQuantities | odsbox_jaquel_mcp/measurement_queries.py:142-166 | every fallback entry has the submatrix-column shape |
| Measurements.Quantities | odsbox_jaquel_mcp/measurement_queries.py:107-171 | a non-dict measurement gives [] |
| Measurements.QuantitiesFallback | odsbox_jaquel_mcp/measurement_queries.py:133-166 | the submatrix columns are used only when the five direct sources give nothing, and then every entry has the submatrix-column shape |
| Measurements.DirectQuantitiesAbsent | odsbox_jaquel_mcp/measurement_queries.py:132-138 | source keys the record does not have add no quantities |
| Measurements.FallbackQuantitiesNone | odsbox_jaquel_mcp/measurement_queries.py:141-166 | submatrix sources whose submatrices have no named columns add no quantities |
| Measurements.CollectColumnQuantities | odsbox_jaquel_mcp/measurement_queries.py:157-166 | the innermost loop produces `ColumnQuantities` |
| Measurements.CollectSubmatrixQuantities | odsbox_jaquel_mcp/measurement_queries.py:153-166 | the loop over submatrices produces `SubmatrixQuantities` |
| Measurements.CollectDirectQuantities | odsbox_jaquel_mcp/measurement_queries.py:133-139 | the loop over the five sources adds a list's items or a dict itself, in source order |
| Measurements.CollectFallbackQuantities | odsbox_jaquel_mcp/measurement_queries.py:149-166 | the loop over the four submatrix sources produces `FallbackQuantities` |
| Measurements.GetAvailableQuantitiesForMeasurement | odsbox_jaquel_mcp/measurement_queries.py:107-171 | the method returns exactly `Quantities(measurement)` |
| Measurements.SubsequenceTransitive | odsbox_jaquel_mcp/measurement_queries.py:194-227 | a subsequence of a subsequence is a subsequence, so successive filters keep order |
| Measurements.SubsequenceReflexive | odsbox_jaquel_mcp/measurement_queries.py:194 | an unfiltered list is its own subsequence |
| Measurements.Filter | odsbox_jaquel_mcp/measurement_queries.py:198-227 | a comprehension succeeds iff its condition raises on no element; it keeps exactly the elements whose condition holds |
| Measurements.FilterSubsequence | odsbox_jaquel_mcp/measurement_queries.py:198-227 | a comprehension keeps the input's order |
| Measurements.Select | odsbox_jaquel_mcp/measurement_queries.py:198-227 | the records kept by one criterion are those passing it, as an order-preserving subsequence |
| Measurements.QuantityKeys | odsbox_jaquel_mcp/measurement_queries.py:224 | one name per quantity when no quantity raises |
| Measurements.FilterMeasurementsByCriteria | odsbox_jaquel_mcp/measurement_queries.py:174-232 | the method returns exactly `FilteredByCriteria(...)`; any error is re-raised as "Failed to filter measurements: ..." |
| Measurements.SelectIfProps | odsbox_jaquel_mcp/measurement_queries.py:197-227 | a falsy criterion is not applied; an applied one keeps an order-preserving subsequence of exactly the passing records |
| Measurements.CriteriaFilter | odsbox_jaquel_mcp/measurement_queries.py:193-229 | the result is an order-preserving subsequence holding exactly the input records that meet every supplied criterion: exact test name (`TestName` or `Test.Name`), exact status, case-insensitive substring of `Name` or `Id`, all listed quantities |
| Measurements.CriteriaFilterOrder | odsbox_jaquel_mcp/measurement_queries.py:194-227 | four successive filters keep the input order |
| Measurements.MeasurementsByTest | odsbox_jaquel_mcp/measurement_queries.py:387-402 | an order-preserving subsequence holding exactly the records whose `TestName` or `Test.Name` equals the name; errors are not wrapped |
| Measurements.ByTestIsTestCriterion | odsbox_jaquel_mcp/measurement_queries.py:197-202 | filtering by a test name alone gives what `get_measurements_by_test` gives, with errors wrapped |
| Measurements.PathStep | odsbox_jaquel_mcp/measurement_queries.py:317-324 | one pass keeps an order-preserving subsequence holding exactly the records that contain the component, ignoring case, in `TestName` or `Test.Name` |
| Measurements.ByHierarchy | odsbox_jaquel_mcp/measurement_queries.py:295-329 | an empty path filter gives exactly the extracted records |
| Measurements.MatchesPathSnoc | odsbox_jaquel_mcp/measurement_queries.py:316-324 | a record that matches a path and the next component matches the longer path |
| Measurements.MatchesPathInit | odsbox_jaquel_mcp/measurement_queries.py:315-324 | a record matching a path matches its prefix without the last component, and that last component |
| Measurements.PathFilteredKeeps | odsbox_jaquel_mcp/measurement_queries.py:315-326 | an input record that matches every component survives all the passes |
| Measurements.PathFilteredMatches | odsbox_jaquel_mcp/measurement_queries.py:315-326 | after the loop, the records are a subsequence of the input holding exactly the input records that match every component |
| Measurements.HierarchyQueryMatches | odsbox_jaquel_mcp/measurement_queries.py:308-326 | the records returned are exactly the extracted records that contain each path component, ignoring case, in their test name, in extraction order |
| Measurements.QueryMeasurementsByHierarchy | odsbox_jaquel_mcp/measurement_queries.py:295-329 | the method returns exactly `ByHierarchy(queryResult, path)` |
| Measurements.FilterByPath | odsbox_jaquel_mcp/measurement_queries.py:315-326 | the loop, which reassigns `filtered` once per component, produces `PathFiltered` |
| Measurements.PathFilteredErr | odsbox_jaquel_mcp/measurement_queries.py:316-324 | once a pass raises, later components do not change the outcome |
| MeasurementViews.FindGroup | odsbox_jaquel_mcp/measurement_queries.py:91-92 | the entry found has a key `==` the given one; none is found only when no key is `==` |
| MeasurementViews.AddToGroup | odsbox_jaquel_mcp/measurement_queries.py:91-93 | appending fails exactly for an unhashable key (a list or dict), with `unhashable type: '...'` |
| MeasurementViews.KeyEqEquivalence | odsbox_jaquel_mcp/measurement_queries.py:91 | Python's `==` on hashable keys is symmetric and transitive |
| MeasurementViews.FindGroupSameKeys | odsbox_jaquel_mcp/measurement_queries.py:91 | lookup depends on the keys only |
| MeasurementViews.FindGroupEquivalent | odsbox_jaquel_mcp/measurement_queries.py:91 | keys that are `==` (such as `1` and `True`) find the same entry |
| MeasurementViews.AddToGroupItems | odsbox_jaquel_mcp/measurement_queries.py:91-93 | `d.setdefault`-style append adds the item at the end of exactly that key's list, and changes no other key's list |
| MeasurementViews.AppendToExisting | odsbox_jaquel_mcp/measurement_queries.py:93 | appending to an existing list changes only that list |
| MeasurementViews.FindGroupAppend | odsbox_jaquel_mcp/measurement_queries.py:92 | a new key sits after all earlier keys in the lookup |
| MeasurementViews.AppendNewGroup | odsbox_jaquel_mcp/measurement_queries.py:91-93 | a key not yet present gets a one-item list |
| MeasurementViews.TotalItemsUpdate | odsbox_jaquel_mcp/measurement_queries.py:93 | replacing one list changes the item count by the difference |
| MeasurementViews.AddToGroupTotal | odsbox_jaquel_mcp/measurement_queries.py:91-93 | each append adds exactly one item in total |
| MeasurementViews.AddToGroupKeys | odsbox_jaquel_mcp/measurement_queries.py:91-92 | every key of the dict after the append is an old key or the new one |
| MeasurementViews.MeasurementHierarchy | odsbox_jaquel_mcp/measurement_queries.py:65-104 | `total_measurements` is the input's length, non-dicts included; `by_date_range` stays empty |
| MeasurementViews.GroupedLists | odsbox_jaquel_mcp/measurement_queries.py:84-99 | `by_status[k]` lists exactly the dict records with status `k` (default "Unknown") in input order, so each dict lands in exactly one bucket; `by_test[k]` lists exactly the dict records with a truthy test name `k`; every `by_test` key is truthy |
| MeasurementViews.GroupedErr | odsbox_jaquel_mcp/measurement_queries.py:84-99 | once a record raises, later records do not change the outcome |
| MeasurementViews.BuildMeasurementHierarchy | odsbox_jaquel_mcp/measurement_queries.py:65-104 | the method returns exactly `MeasurementHierarchy(ms)`, errors re-raised as "Failed to build hierarchy: ..." |
| MeasurementViews.MeasurementIndex | odsbox_jaquel_mcp/measurement_queries.py:332-384 | `total_measurements` is the input's length |
| MeasurementViews.IndexLookups | odsbox_jaquel_mcp/measurement_queries.py:356-366 | `by_id[str(Id)]` is the last dict record with that truthy id; `by_name[n]` lists the records with truthy name `n` in input order |
| MeasurementViews.IndexAgreesWithHierarchy | odsbox_jaquel_mcp/measurement_queries.py:368-379 | the index's `by_test` and `by_status` are exactly the hierarchy's, so they keep input order |
| MeasurementViews.CataloguedErr | odsbox_jaquel_mcp/measurement_queries.py:352-379 | once a record raises, later records do not change the outcome |
| MeasurementViews.BuildMeasurementIndex | odsbox_jaquel_mcp/measurement_queries.py:332-384 | the method returns exactly `MeasurementIndex(ms)`, errors re-raised as "Failed to build measurement index: ..." |
| MeasurementSummary.QuantityName | odsbox_jaquel_mcp/measurement_queries.py:274 | `q.get("name") or q.get("Name")` succeeds exactly on a dict, else raises on `.get` |
| MeasurementSummary.QuantityNames | odsbox_jaquel_mcp/measurement_queries.py:274 | the comprehension succeeds iff every quantity is a dict, and then gives one name per quantity, in order |
| MeasurementSummary.SubmatrixCount | odsbox_jaquel_mcp/measurement_queries.py:258-269 | 0 when none of the sources holds a list |
| MeasurementSummary.SubmatrixCountFirst | odsbox_jaquel_mcp/measurement_queries.py:264-269 | for any list of source keys, the count is the length of the first one that holds a list; later ones are not looked at |
| MeasurementSummary.MetadataLookup | odsbox_jaquel_mcp/measurement_queries.py:285-287 | a metadata entry exists for exactly the listed keys the record has, with the record's value |
| MeasurementSummary.MeasurementSummaryOf | odsbox_jaquel_mcp/measurement_queries.py:235-292 | a non-dict raises ValueError("Failed to get measurement summary: ..."); `num_quantities` equals the length of the available quantities and of `quantity_names`; `test_name` is the record's test name; `num_submatrices` is counted over the three keys `submatrices`, `AoSubmatrix`, `Submatrices` |
| MeasurementSummary.SummarySubmatrices | odsbox_jaquel_mcp/measurement_queries.py:258-269 | `num_submatrices` is the length of the list under the first of `submatrices`, `AoSubmatrix`, `Submatrices` that holds one, and 0 when none of them does |
| MeasurementSummary.SubMatricesOnlyQuantities | odsbox_jaquel_mcp/measurement_queries.py:132-166 | a record whose only submatrices, under `SubMatrices`, have no columns yields no quantities |
| MeasurementSummary.SubMatricesNotCounted | odsbox_jaquel_mcp/measurement_queries.py:258-269 | a list under `SubMatrices` alone, which the quantities fallback does read, gives `num_submatrices == 0` |
| MeasurementSummary.SummaryMetadata | odsbox_jaquel_mcp/measurement_queries.py:277-287 | the summary's metadata holds only the six listed keys that are present, with their values |
| MeasurementSummary.CountSubmatrices | odsbox_jaquel_mcp/measurement_queries.py:258-269 | the loop with `break` over the three summary keys produces their `SubmatrixCount` |
| MeasurementSummary.CollectMetadata | odsbox_jaquel_mcp/measurement_queries.py:285-287 | the metadata loop produces `Metadata` |
| MeasurementSummary.CollectQuantityNames | odsbox_jaquel_mcp/measurement_queries.py:274 | the comprehension, as a loop, produces `QuantityNames` |
| MeasurementSummary.QuantityNamesErr | odsbox_jaquel_mcp/measurement_queries.py:274 | once a quantity raises, later ones do not change the outcome |
| MeasurementSummary.GetMeasurementSummary | odsbox_jaquel_mcp/measurement_queries.py:235-292 | the method returns exactly `MeasurementSummaryOf(measurement)` |
| MeasurementSummary.GatherFrom | odsbox_jaquel_mcp/measurement_queries.py:416-420 | a name is gathered iff it is truthy and some record yields it |
| MeasurementSummary.GatherOk | odsbox_jaquel_mcp/measurement_queries.py:417-420 | gathering succeeds iff no record raises and every truthy name is hashable |
| MeasurementSummary.TestNamesFromRecords | odsbox_jaquel_mcp/measurement_queries.py:416-420 | each test name gathered is the truthy test name of some record, and every such name is gathered |
| MeasurementSummary.TestNamesOk | odsbox_jaquel_mcp/measurement_queries.py:417-420 | listing tests raises exactly when some record is not a dict, or has an unhashable truthy test name |
| MeasurementSummary.SortNames | odsbox_jaquel_mcp/measurement_queries.py:421 | for a set of strings, `sorted` gives a strictly ascending list holding exactly the set's members |
| MeasurementSummary.GetUniqueTests | odsbox_jaquel_mcp/measurement_queries.py:405-421 | raises exactly when gathering raises, with that error unwrapped; otherwise a strictly ascending, duplicate-free list of exactly the truthy test names |
| MeasurementSummary.GatherErr | odsbox_jaquel_mcp/measurement_queries.py:417-420 | once a record raises, later records do not change the outcome |
| MeasurementSummary.GatherEachErr | odsbox_jaquel_mcp/measurement_queries.py:436-441 | once a quantity raises, later records do not change the outcome |
| MeasurementSummary.GatherEachFrom | odsbox_jaquel_mcp/measurement_queries.py:436-441 | a name is gathered iff it is the truthy name of some part of some record |
| MeasurementSummary.AllQuantityNamesFrom | odsbox_jaquel_mcp/measurement_queries.py:436-441 | each quantity name gathered is the truthy name of an available quantity of some record, and every such name is gathered |
| MeasurementSummary.AddQuantityNames | odsbox_jaquel_mcp/measurement_queries.py:438-441 | the inner loop adds exactly the record's truthy quantity names to the set, or raises the first error |
| MeasurementSummary.GetUniqueQuantities | odsbox_jaquel_mcp/measurement_queries.py:424-442 | raises exactly when gathering raises; otherwise a strictly ascending, duplicate-free list of exactly the truthy quantity names |
| EntityDescriptions.ExactIndex | odsbox_jaquel_mcp/schemas_entity_descriptions.py:123-124 | the direct lookup fails exactly when the name is not a key, and otherwise finds that key |
| EntityDescriptions.FoldedIndex | odsbox_jaquel_mcp/schemas_entity_descriptions.py:127-130 | the scan finds the first key equal to the name ignoring case, and fails exactly when there is none |
| EntityDescriptions.LookupIsFolded | odsbox_jaquel_mcp/schemas_entity_descriptions.py:122-130 | for keys that are distinct ignoring case, direct-then-scan equals the case-insensitive scan |
| EntityDescriptions.FoldedIndexOfKey | odsbox_jaquel_mcp/schemas_entity_descriptions.py:122-130 | a key written in any letter case is found at its own position |
| EntityDescriptions.BaseNamesFoldedDistinct | odsbox_jaquel_mcp/schemas_entity_descriptions.py:11-93 | no two keys of DESCRIPTIONS differ only in letter case |
| EntityDescriptions.GetDescription | odsbox_jaquel_mcp/schemas_entity_descriptions.py:113-150 | the result is not None exactly when `has_description` holds: an exact key, or a key equal ignoring case |
| EntityDescriptions.DescriptionOfBaseName | odsbox_jaquel_mcp/schemas_entity_descriptions.py:122-130 | a key in any letter case gets the description stored under it |
| EntityDescriptions.DescriptionIgnoresCase | odsbox_jaquel_mcp/schemas_entity_descriptions.py:122-130 | changing only the letter case of a name does not change its description |
| EntityDescriptions.DescriptionFound | odsbox_jaquel_mcp/schemas_entity_descriptions.py:122-130 | a description is found only for a name equal to some key ignoring case |
| EntityDescriptions.GetEntityDescription | odsbox_jaquel_mcp/schemas_entity_descriptions.py:96-110 | base `AoAny` with a name starting "Tpl" gives the template text, else starting "Cat" the catalog text, else (and for every other base) `get_description(base_name)`; base `AoAny` always has a description |
| EntityDescriptions.ListBaseEntities | odsbox_jaquel_mcp/schemas_entity_descriptions.py:153-159 | strictly ascending, exactly the DESCRIPTIONS keys, each of which has a description |
| Schemas.ItemKeys | odsbox_jaquel_mcp/schemas.py:53 | `list(d.keys())` lists the keys in iteration order |
| Schemas.Find | odsbox_jaquel_mcp/schemas.py:194-199 | `key in d` fails exactly when no item has the key |
| Schemas.FindFirst | odsbox_jaquel_mcp/schemas.py:195-199 | a found value is stored under the key |
| Schemas.MapValues | odsbox_jaquel_mcp/schemas.py:75-102 | the dict built by the loop has one entry per source entry, same key, value transformed |
| Schemas.MapValuesKeys | odsbox_jaquel_mcp/schemas.py:75-102 | the built dict has the source's keys in the source's order |
| Schemas.SortedViewMapped | odsbox_jaquel_mcp/schemas.py:154-172 | transforming each value of the schema dict keeps its sorted view a sorted view of the transformed dict |
| Schemas.SortedItems | odsbox_jaquel_mcp/schemas.py:154-166 | `sorted(d.items())` lists every key once, in strictly ascending order, with its value |
| Schemas.DropPrefix | odsbox_jaquel_mcp/schemas.py:81 | `s[3:]` drops exactly the first three characters, and gives "" for shorter strings |
| Schemas.AttributeInfoOf | odsbox_jaquel_mcp/schemas.py:77-84 | `is_array` iff the type name starts with "DS_" or is "DT_UNKNOWN"; `nullable` iff not obligatory; `data_type` is the name without its first 3 characters |
| Schemas.SequenceType | odsbox_jaquel_mcp/schemas.py:77-81 | a `DS_X` attribute is an array of data type `X` |
| Schemas.ScalarType | odsbox_jaquel_mcp/schemas.py:77-81 | a `DT_X` attribute other than `DT_UNKNOWN` is not an array, and has data type `X` |
| Schemas.RelationshipType | odsbox_jaquel_mcp/schemas.py:89-92 | (-1,-1) gives "n:m" and only it; (1,-1) gives "1:n" and only it; anything else gives "n:1" |
| Schemas.RelationInfoOf | odsbox_jaquel_mcp/schemas.py:88-102 | `nullable` iff `range_min == 0`; the relationship type follows the range rule; target, inverse name and relationship name (without prefix) are carried over |
| Schemas.AppendEach | odsbox_jaquel_mcp/schemas.py:48-56 | the loop appends one entry per entity, in order |
| Schemas.SchemaListEntities | odsbox_jaquel_mcp/schemas.py:38-59 | "Model not loaded" exactly without a model; otherwise `count` equals the number of entities, with one summary (name, base name, relation names, description) per entity in order |
| Schemas.EntitySchemaOf | odsbox_jaquel_mcp/schemas.py:62-113 | "Model not loaded" exactly without a cache; a failing entity lookup gives `{error: str(e), entity: name}`; a schema carries the entity's attribute and relation names in order, its name and base name |
| Schemas.MapItems | odsbox_jaquel_mcp/schemas.py:76-84 | the loop of assignments produces `MapValues` |
| Schemas.GetEntitySchema | odsbox_jaquel_mcp/schemas.py:62-113 | the method returns exactly `EntitySchemaOf(cache, name)` |
| Schemas.Take | odsbox_jaquel_mcp/schemas.py:208 | `s[:n]` is the prefix of length `min(n, len(s))` |
| Schemas.FieldExistsCases | odsbox_jaquel_mcp/schemas.py:186-209 | (corrected version) a matching attribute wins over a matching relation; a field matching neither gives `exists: False` with the attribute names followed by the relation names, and at most 5 suggestions |
| Schemas.FindMapped | odsbox_jaquel_mcp/schemas.py:194-199 | looking up a key in the built dict gives the transformed value stored under it in the source |
| Schemas.MissingFieldRaises | odsbox_jaquel_mcp/schemas.py:200-211 | as written, `exists: False` is never returned: where the corrected version reports a missing field, the `NameError` of the mangled helper name is reported instead; otherwise both agree |
| Schemas.MissingFieldExample | odsbox_jaquel_mcp/schemas.py:200-211 | a loaded entity where the cache finds neither an attribute nor a relation of that name shows the two versions differ |
| Schemas.FormatEntitySchemaAsMarkdown | odsbox_jaquel_mcp/schemas.py:115-174 | a schema error gives the error document; otherwise the attribute rows and relationship rows are each sorted by name and hold exactly one row per field, with the marks rendered from `is_array`/`nullable`; a blank description adds no line |
| SchemaHierarchy.ConditionLinksParent | odsbox_jaquel_mcp/schemas.py:242-244 | below the first level the condition maps the parent relation's inverse name to 4711 and keeps `name: {$like: "*"}` |
| SchemaHierarchy.QueryExampleSelects | odsbox_jaquel_mcp/schemas.py:245-249 | the query example holds the condition under the entity's own name |
| SchemaHierarchy.MapSeq | odsbox_jaquel_mcp/schemas.py:251-261 | one chain entry per step, in order |
| SchemaHierarchy.WalkNext | odsbox_jaquel_mcp/schemas.py:239-266 | a pass that finds a child entity lists the current entity, then walks on from the child |
| SchemaHierarchy.WalkLinks | odsbox_jaquel_mcp/schemas.py:235-266 | the first step is the start entity; each later step is the entity the previous entity's `children` relation leads to |
| SchemaHierarchy.ListedOnceCons | odsbox_jaquel_mcp/schemas.py:239-240 | listing an unvisited entity before a walk that avoids it keeps every name listed once |
| SchemaHierarchy.WalkVisitsOnce | odsbox_jaquel_mcp/schemas.py:232-266 | no entity is listed twice, or listed after being visited; so the walk is no longer than the unvisited entities |
| SchemaHierarchy.EndsQuietlyCons | odsbox_jaquel_mcp/schemas.py:239-269 | the stopping condition of a walk carries over to the walk one step earlier |
| SchemaHierarchy.WalkEmpty | odsbox_jaquel_mcp/schemas.py:239 | a walk lists nothing exactly when it starts at a visited entity, and then raises nothing |
| SchemaHierarchy.WalkLast | odsbox_jaquel_mcp/schemas.py:264-269 | the pass that ends the loop finds no `children` relation, or its lookup of the child raises |
| SchemaHierarchy.WalkStops | odsbox_jaquel_mcp/schemas.py:239-269 | a walk that ends without exception stops at an entity with no `children` relation, or whose child was listed already |
| SchemaHierarchy.WalkFails | odsbox_jaquel_mcp/schemas.py:264-266 | a walk that ends with an exception ends at the lookup of the last entity's child |
| SchemaHierarchy.EntryLinksParent | odsbox_jaquel_mcp/schemas.py:242-261 | below the first level an entry's `parent_relation` is the inverse name of the relation it was reached through, and its query example maps that name to 4711 |
| SchemaHierarchy.HierarchyChain | odsbox_jaquel_mcp/schemas.py:214-276 | "Model not loaded" exactly without a cache; `depth == len(chain)`, at most the number of entities; the chain is the walk from the `AoTest` entity, with no name twice |
| SchemaHierarchy.HierarchyLinks | odsbox_jaquel_mcp/schemas.py:235-261 | the first entry has no parent relation; each later entry is the child of the one before, with the query example that links it to its parent |
| SchemaHierarchy.HierarchyEnds | odsbox_jaquel_mcp/schemas.py:239-284 | a successful walk ends where `children` leads nowhere new; a failed one reports the exception and the partial chain, raised either by the last entity's child lookup or by the `AoTest` lookup with an empty chain |
| SchemaHierarchy.LoopPass | odsbox_jaquel_mcp/schemas.py:239-269 | one pass of the `while` loop keeps the walk still ahead in step with the whole walk |
| SchemaHierarchy.FollowChildren | odsbox_jaquel_mcp/schemas.py:230-269 | the `while` loop over `visited`, the chain, the current entity and the relation produces the walk's entries and its exception |
| SchemaHierarchy.SchemaTestToMeasurementHierarchy | odsbox_jaquel_mcp/schemas.py:214-284 | the method returns exactly `Hierarchy(cache)` |
| DataPreparation.LastIndex | odsbox_jaquel_mcp/data_preparation.py:58-60 | the last row with a key is a row with that key, and no later row has it |
| DataPreparation.LastWinsAppend | odsbox_jaquel_mcp/data_preparation.py:58-60 | assigning one more row's key keeps the dict last-wins over the longer table |
| DataPreparation.LastWinsAt | odsbox_jaquel_mcp/data_preparation.py:58-60 | a row whose key no later row repeats sets that key's value |
| DataPreparation.DictFromRows | odsbox_jaquel_mcp/data_preparation.py:33-38 | the dict built from a table has exactly the rows' keys, and the last row with a key sets its value |
| DataPreparation.ExtractUnitLookup | odsbox_jaquel_mcp/data_preparation.py:18-38 | an empty table gives `{}`; with the unit column each id maps to the unit of its last row; without it only the first id is mapped, to `-` |
| DataPreparation.BuildLabelDict | odsbox_jaquel_mcp/data_preparation.py:41-60 | an empty table gives `{}`; otherwise each name maps to the label of its last row |
| DataPreparation.LabelOfColumn | odsbox_jaquel_mcp/data_preparation.py:58-60 | a column's label is `name [unit]`, with `-` where the lookup has no unit for its id |
| DataPreparation.FirstMeasurement | odsbox_jaquel_mcp/data_preparation.py:93-98 | no match exactly when no measurement row has the id; otherwise the first row with it |
| DataPreparation.TitleOf | odsbox_jaquel_mcp/data_preparation.py:88-101 | a submatrix with a measurement row is titled `Project - Test - MeaResult` from the first such row, otherwise `Submatrix <id>` |
| DataPreparation.BuildSubmatrixTitleLookup | odsbox_jaquel_mcp/data_preparation.py:63-103 | `{}` when either table is empty; otherwise every submatrix id has the title of its last row |
| DataPreparation.FirstIndependent | odsbox_jaquel_mcp/data_preparation.py:123-129 | no match exactly when no column has `independent == 1`; otherwise the first that has |
| DataPreparation.GetIndependentColumnInfo | odsbox_jaquel_mcp/data_preparation.py:105-132 | `("Index", "-")` without an independent column; otherwise the first one's name and its unit, `-` where the lookup has none |
| DataPreparation.Missing | odsbox_jaquel_mcp/data_preparation.py:163 | lists exactly the requested names not present, no more of them than were requested |
| DataPreparation.Columns | odsbox_jaquel_mcp/data_preparation.py:168 | the column part of every signal row, in order |
| DataPreparation.PrepareOutcome | odsbox_jaquel_mcp/data_preparation.py:138-174 | fails exactly for no signals (message "No signals provided") or a requested name no signal has (message listing the missing names); a prepared table has one column per signal name, among them every requested name |
| DataPreparation.PrepareIndex | odsbox_jaquel_mcp/data_preparation.py:167-172 | a prepared table is indexed by the first independent signal, and has no index without one |
| DataPreparation.KeepEach | odsbox_jaquel_mcp/data_preparation.py:210-233 | every kept item comes from some entry, and every entry that gives an item has it kept |
| DataPreparation.CollectEach | odsbox_jaquel_mcp/data_preparation.py:208-233 | the `for` loop with `continue` collects exactly `KeepEach` |
| DataPreparation.KeepEachAppend | odsbox_jaquel_mcp/data_preparation.py:210-233 | one more entry appends its item, if it has one, at the end |
| DataPreparation.PrepareMeasurementDataItems | odsbox_jaquel_mcp/data_preparation.py:179-238 | the unit lookup is computed unless one is given; the result is the items of the entries, built with the title lookup and label dict, sorted by title |
| DataPreparation.ItemOfEntry | odsbox_jaquel_mcp/data_preparation.py:211-233 | an entry gives an item exactly when its table can be prepared, titled after the submatrix (`Unknown` without one) and its independent column, with the label dict |
| DataPreparation.ItemsSorted | odsbox_jaquel_mcp/data_preparation.py:235-236 | no more items than submatrices; sorted by title; items of one title keep their order |
| DataPreparation.ItemsFromEntries | odsbox_jaquel_mcp/data_preparation.py:210-236 | every item in the result is the item of some entry |
| DataPreparation.ItemsComplete | odsbox_jaquel_mcp/data_preparation.py:210-236 | every entry whose table can be prepared has its item in the result |
| Sorting.SortBy | odsbox_jaquel_mcp/data_preparation.py:236 | `list.sort(key=…)` gives a permutation of the list |
| Sorting.SortBySorted | odsbox_jaquel_mcp/data_preparation.py:236 | the sorted list is in ascending order of its keys |
| Sorting.SortByStable | odsbox_jaquel_mcp/data_preparation.py:236 | the sort is stable: items with equal keys keep their order |
| Sorting.SortedSet | odsbox_jaquel_mcp/schemas.py:154 | `sorted` of distinct names lists every name once, in strictly ascending order |

## Left out

- `odsbox_jaquel_mcp/measurement_analysis.py` is not part of this model: it is floating-point statistics.
- `odsbox_jaquel_mcp/connection.py` and `odsbox_jaquel_mcp/submatrix/data_reader.py` are not part of this model: they are network I/O through the external `odsbox` client.
- `odsbox_jaquel_mcp/tools/query_tools.py` is not part of this model: query explanation and SQL rendering need the external Jaquel parser, protobuf enums and a live model cache.
- The notebook, visualisation and script generators, the static resources, prompts and bulk API guide, `server.py` and the other `tools/*.py` handlers are not part of this model. They are text templates, fixed documentation, or asynchronous MCP dispatch and JSON serialisation.
- The MCP `TextContent` wrapper and `json.dumps` of tool results are not modelled; the filter tool's result or error record is.
- `difflib` fuzzy matching (`schemas.py:15-21`) is a parameter `suggest` that returns a list of suggestions; only the `[:5]` applied to its result is modelled.
- `ods.DataTypeEnum.Name` and `ods.Model.RelationshipEnum.Name` are not modelled; the model takes the enum names as strings.
- The `ModelCache` lookups (`entity`, `entity_by_base_name`, `attribute_no_throw`, `relation_no_throw`) belong to the external `odsbox` package. They are function fields of `Schemas.ModelCache`, and `Schemas.Valid` only requires that they answer with entities of the model. The exception an `entity` lookup raises is part of the lookup's result.
- `EntityDescriptions.get_entity_description` is given the entity's name and base name, the two fields it reads, rather than the protobuf entity.
- pandas is not modelled: a `DataFrame` is a sequence of row records, and `DataPreparation.Frame` holds only the prepared columns by name and the index column.
- Schemas.FormatEntitySchemaAsMarkdown: the document is a structured value (the entity, the error text, the description line, and the attribute and relationship rows with their cells and marks), not the markdown text. The text layout is not modelled: headings, table borders, backticks and line breaks.
- DataPreparation.PrepareOutcome: the `except Exception` path of `prepare_submatrix_dataframe` (for example signal columns of different lengths, which `pd.DataFrame` rejects) is not modelled, and neither is the order of the DataFrame's columns.
- Python's `repr` of strings chooses its quotes as CPython does and escapes backslashes, quotes, `\n`, `\r`, `\t` and the Latin-1 control characters. The escapes CPython uses for other non-printable Unicode characters are not modelled.
- The text of floats (`str(1.5)`) is not modelled; a `Float` value carries its text as given.
- `str.lower()` maps ASCII letters only; the Unicode case mappings are not modelled.
- MeasurementSummary.SortNames: when some name is not a string, the model keeps only the set of names. It does not model the `TypeError` that `sorted` raises when comparing a string with a number, or the order `sorted` would give for numbers. The same holds for MeasurementSummary.GetUniqueTests and MeasurementSummary.GetUniqueQuantities.
- FilterTools.BuildFilterCondition: the tool's arguments are taken to be a dict, so the `AttributeError` of `arguments.get` on a non-dict, turned into `error_response`, is not modelled. The same holds for FilterTools.MergeFilterConditions.
- Measurements.FilterMeasurementsByCriteria: a criterion passed as `None` is modelled as the empty string or empty list, which Python treats the same way, since both are falsy.
- SchemaHierarchy.FollowChildren: the loop is written once, generic over the function that builds a chain entry. The outer method passes the entry builder of `schemas.py:251-261`.
- Behaviour found only in the repository's tests is not modelled, because the code does not implement it: the multiple-entity error and the filter checks inside `validate_query`, the name `query_generate_skeleton` (the code defines `generate_query_skeleton`), and the `SchemaInspector` method names used by `tools/schema_tools.py`.
- `extract_unit_lookup` without the unit column zips the ids with the one-character string `"-"`, so only the first id gets a unit. The model keeps this behaviour, because the repository gives no statement of what was intended.

## Findings

| source | as written | input that shows it | evidently intended | confidence | as-written member | corrected member |
|---|---|---|---|---|---|---|
| odsbox_jaquel_mcp/schemas.py:208 | `schema_field_exists` calls `__get_suggestion` inside the class body. Python mangles that name to `_SchemaInspector__get_suggestion`, which is not defined. The method's own `except` catches the `NameError`, so the result for a missing field is `{"error": "name '_SchemaInspector__get_suggestion' is not defined", "entity": ...}` | a loaded model, and an entity for which `attribute_no_throw` and `relation_no_throw` both return `None` for the field | `{"exists": False, "entity", "field", "available_fields", "suggestions"}`, with at most 5 suggestions from the module-level `__get_suggestion` | high, not executed | Schemas.MissingFieldExample | Schemas.FieldExistsCases |

`Schemas.FieldExistsAsWritten` models the code as written. `Schemas.MissingFieldRaises` proves that it never answers `exists: False`, and that it agrees with the corrected `Schemas.FieldExists` on every other input. `Schemas.FieldExists` is the corrected definition.
