/**
 * `MeasurementHierarchyExplorer`: pulling measurement records out of an
 * ODS query result, finding their quantities, filtering, grouping and
 * indexing them, and listing the distinct test and quantity names.
 * Records are JSON values; a list may hold anything, and calling `.get`
 * on an element that is not a dict raises, as in Python.
 */
module Measurements {
  import opened Text
  import opened Json
  import Sorting

  // ---------------------------------------------------------------- element access

  /** `m.get(key, default)` on a list element that ought to be a dict. */
  function ItemGetOr(m: Value, key: string, default: Value): (r: Result<Value>)
    ensures r.Ok? <==> m.Object?
    ensures r.Err? ==> r.error == NoAttribute(m, "get")
  {
    if m.Object? then Ok(GetOr(m.members, key, default)) else Err(NoAttribute(m, "get"))
  }

  /** `m.get("TestName") or m.get("Test", {}).get("Name")` */
  function TestNameOf(m: Value): (r: Result<Value>)
    ensures !m.Object? ==> r == Err(NoAttribute(m, "get"))
    ensures m.Object? && Truthy(GetOrNull(m.members, "TestName")) ==> r == Ok(GetOrNull(m.members, "TestName"))
  {
    if !m.Object? then Err(NoAttribute(m, "get"))
    else
      var direct := GetOrNull(m.members, "TestName");
      if Truthy(direct) then Ok(direct)
      else
        var test := GetOr(m.members, "Test", Object([]));
        if test.Object? then Ok(GetOrNull(test.members, "Name")) else Err(NoAttribute(test, "get"))
  }

  /** What `list.extend(v)` adds when `v` is a list, and nothing otherwise. */
  function ListItems(v: Value): seq<Value> {
    if v.List? then v.items else []
  }

  // ---------------------------------------------------------------- extract_measurements_from_query_result

  /** The dict elements of a list, in order. */
  function DictsAmong(items: seq<Value>): (r: seq<Value>)
    ensures forall x :: x in r <==> x in items && x.Object?
  {
    if items == [] then []
    else
      var last := items[|items| - 1];
      DictsAmong(items[..|items| - 1]) + (if last.Object? then [last] else [])
  }

  /** An `"AoMeasurement"` list contributes its dicts, a single dict itself. */
  function AoMeasurementPart(q: seq<Member>): seq<Value> {
    match GetOrNull(q, "AoMeasurement")
    case List(items) => DictsAmong(items)
    case Object(ms) => [Object(ms)]
    case _ => []
  }

  /** The `"measurements"` list of one `"AoTest"` record. */
  function TestMeasurements(t: Value): seq<Value> {
    if t.Object? && HasKey(t.members, "measurements")
    then ListItems(GetOr(t.members, "measurements", List([])))
    else []
  }

  /** `for t in ts: out.extend(part(t))` */
  function Concat(ts: seq<Value>, part: Value -> seq<Value>): seq<Value> {
    if ts == [] then [] else Concat(ts[..|ts| - 1], part) + part(ts[|ts| - 1])
  }

  function TestsPart(tests: seq<Value>): seq<Value> {
    Concat(tests, TestMeasurements)
  }

  function AoTestPart(q: seq<Member>): seq<Value> {
    TestsPart(ListItems(GetOrNull(q, "AoTest")))
  }

  /** The records `extract_measurements_from_query_result` returns, in order. */
  function Extracted(queryResult: Value): (r: seq<Value>)
    ensures !queryResult.Object? ==> r == []
  {
    if !queryResult.Object? then []
    else
      var q := queryResult.members;
      ListItems(GetOrNull(q, "measurements")) + AoMeasurementPart(q) + AoTestPart(q)
  }

  lemma {:induction false} ConcatMembers(ts: seq<Value>, part: Value -> seq<Value>, x: Value)
    ensures x in Concat(ts, part) <==> exists i :: 0 <= i < |ts| && x in part(ts[i])
  {
    if ts != [] {
      var init, last := ts[..|ts| - 1], ts[|ts| - 1];
      ConcatMembers(init, part, x);
      if x in Concat(init, part) {
        var i :| 0 <= i < |init| && x in part(init[i]);
        assert ts[i] == init[i];
      }
      if exists i :: 0 <= i < |ts| && x in part(ts[i]) {
        var i :| 0 <= i < |ts| && x in part(ts[i]);
        if i < |init| {
          assert init[i] == ts[i];
        }
      }
    }
  }

  lemma {:induction false} TestsPartMembers(tests: seq<Value>, x: Value)
    ensures x in TestsPart(tests) <==> exists i :: 0 <= i < |tests| && x in TestMeasurements(tests[i])
  {
    ConcatMembers(tests, TestMeasurements, x);
  }

  /** A record is extracted exactly when one of the three places holds it. */
  lemma {:induction false} ExtractedMembers(q: seq<Member>, x: Value)
    ensures x in Extracted(Object(q)) <==>
              || x in ListItems(GetOrNull(q, "measurements"))
              || (x.Object? && (x == GetOrNull(q, "AoMeasurement") || x in ListItems(GetOrNull(q, "AoMeasurement"))))
              || exists i :: 0 <= i < |ListItems(GetOrNull(q, "AoTest"))|
                             && x in TestMeasurements(ListItems(GetOrNull(q, "AoTest"))[i])
  {
    TestsPartMembers(ListItems(GetOrNull(q, "AoTest")), x);
  }

  /** The loop over an `"AoMeasurement"` list. */
  method CollectDicts(items: seq<Value>) returns (r: seq<Value>)
    ensures r == DictsAmong(items)
  {
    r := [];
    var i := 0;
    while i < |items|
      invariant 0 <= i <= |items|
      invariant r == DictsAmong(items[..i])
    {
      assert items[..i + 1][..i] == items[..i];
      if items[i].Object? {
        r := r + [items[i]];
      }
      i := i + 1;
    }
    assert items[..|items|] == items;
  }

  /** The loop over an `"AoTest"` list. */
  method CollectTestMeasurements(tests: seq<Value>) returns (r: seq<Value>)
    ensures r == TestsPart(tests)
  {
    r := [];
    var j := 0;
    while j < |tests|
      invariant 0 <= j <= |tests|
      invariant r == TestsPart(tests[..j])
    {
      assert tests[..j + 1][..j] == tests[..j];
      var t := tests[j];
      if t.Object? && HasKey(t.members, "measurements") {
        var list := GetOr(t.members, "measurements", List([]));
        if list.List? {
          r := r + list.items;
        }
      }
      j := j + 1;
    }
    assert tests[..|tests|] == tests;
  }

  /** `MeasurementHierarchyExplorer.extract_measurements_from_query_result` */
  method ExtractMeasurementsFromQueryResult(queryResult: Value) returns (r: seq<Value>)
    ensures r == Extracted(queryResult)
  {
    r := [];
    if !queryResult.Object? {
      return;
    }
    var q := queryResult.members;
    var direct := GetOrNull(q, "measurements");
    if direct.List? {
      r := r + direct.items;
    }
    assert r == ListItems(direct);
    var meas := GetOrNull(q, "AoMeasurement");
    if meas.List? {
      var dicts := CollectDicts(meas.items);
      r := r + dicts;
    } else if meas.Object? {
      r := r + [meas];
    }
    assert r == ListItems(direct) + AoMeasurementPart(q);
    var tests := GetOrNull(q, "AoTest");
    if tests.List? {
      var found := CollectTestMeasurements(tests.items);
      r := r + found;
    }
    assert r == ListItems(direct) + AoMeasurementPart(q) + AoTestPart(q);
  }

  // ---------------------------------------------------------------- get_available_quantities_for_measurement

  const QuantitySources: seq<string> :=
    ["quantities", "MeasurementQuantities", "measurement_quantities", "AoMeasurementQuantity", "Quantities"]

  const SubmatrixSources: seq<string> := ["submatrices", "AoSubmatrix", "Submatrices", "SubMatrices"]

  /** What one source key adds: a list's items, or a dict itself. */
  function SourceItems(m: seq<Member>, key: string): seq<Value> {
    match GetOrNull(m, key)
    case List(items) => items
    case Object(o) => [Object(o)]
    case _ => []
  }

  function DirectQuantities(m: seq<Member>, keys: seq<string>): seq<Value> {
    if keys == [] then []
    else DirectQuantities(m, keys[..|keys| - 1]) + SourceItems(m, keys[|keys| - 1])
  }

  /** `{"name": name, "source": "submatrix_column"}` */
  function ColumnQuantity(name: Value): Value {
    Object([Member("name", name), Member("source", Str("submatrix_column"))])
  }

  /** The shape of every quantity found through a submatrix. */
  predicate IsColumnQuantity(x: Value) {
    x.Object? && |x.members| == 2 && x.members[0].key == "name" && Truthy(x.members[0].value)
    && x.members[1] == Member("source", Str("submatrix_column"))
  }

  /** One entry per dict column with a truthy `"Name"`. */
  function ColumnQuantities(cols: seq<Value>): (r: seq<Value>)
    ensures forall i :: 0 <= i < |r| ==> IsColumnQuantity(r[i])
    ensures |r| <= |cols|
  {
    if cols == [] then []
    else
      var col := cols[|cols| - 1];
      var more := if col.Object? && Truthy(GetOrNull(col.members, "Name"))
                  then [ColumnQuantity(GetOrNull(col.members, "Name"))] else [];
      ColumnQuantities(cols[..|cols| - 1]) + more
  }

  /** `sm.get("LocalColumns") or sm.get("AoLocalColumn")` */
  function SubmatrixColumns(sm: seq<Member>): Value {
    var local := GetOrNull(sm, "LocalColumns");
    if Truthy(local) then local else GetOrNull(sm, "AoLocalColumn")
  }

  function SubmatrixQuantities(sms: seq<Value>): (r: seq<Value>)
    ensures forall i :: 0 <= i < |r| ==> IsColumnQuantity(r[i])
  {
    if sms == [] then []
    else
      var sm := sms[|sms| - 1];
      var more := if sm.Object? then ColumnQuantities(ListItems(SubmatrixColumns(sm.members))) else [];
      SubmatrixQuantities(sms[..|sms| - 1]) + more
  }

  function FallbackQuantities(m: seq<Member>, keys: seq<string>): (r: seq<Value>)
    ensures forall i :: 0 <= i < |r| ==> IsColumnQuantity(r[i])
  {
    if keys == [] then []
    else FallbackQuantities(m, keys[..|keys| - 1]) + SubmatrixQuantities(ListItems(GetOrNull(m, keys[|keys| - 1])))
  }

  /** What `get_available_quantities_for_measurement` returns. */
  function Quantities(measurement: Value): (r: seq<Value>)
    ensures !measurement.Object? ==> r == []
  {
    if !measurement.Object? then []
    else
      var direct := DirectQuantities(measurement.members, QuantitySources);
      if direct != [] then direct else FallbackQuantities(measurement.members, SubmatrixSources)
  }

  /** The submatrix columns are consulted only when none of the five direct sources yields anything. */
  lemma {:induction false} QuantitiesFallback(m: seq<Member>)
    ensures DirectQuantities(m, QuantitySources) != [] ==> Quantities(Object(m)) == DirectQuantities(m, QuantitySources)
    ensures DirectQuantities(m, QuantitySources) == [] ==>
              forall i :: 0 <= i < |Quantities(Object(m))| ==> IsColumnQuantity(Quantities(Object(m))[i])
  {
  }

  /** Keys the record does not have add no quantities. */
  lemma {:induction false} DirectQuantitiesAbsent(m: seq<Member>, keys: seq<string>)
    requires forall i :: 0 <= i < |keys| ==> GetOrNull(m, keys[i]) == Null
    ensures DirectQuantities(m, keys) == []
  {
    if keys != [] {
      DirectQuantitiesAbsent(m, keys[..|keys| - 1]);
    }
  }

  /** Submatrix sources whose submatrices have no named columns add no quantities. */
  lemma {:induction false} FallbackQuantitiesNone(m: seq<Member>, keys: seq<string>)
    requires forall i :: 0 <= i < |keys| ==> SubmatrixQuantities(ListItems(GetOrNull(m, keys[i]))) == []
    ensures FallbackQuantities(m, keys) == []
  {
    if keys != [] {
      FallbackQuantitiesNone(m, keys[..|keys| - 1]);
    }
  }

  method CollectColumnQuantities(cols: seq<Value>) returns (r: seq<Value>)
    ensures r == ColumnQuantities(cols)
  {
    r := [];
    var k := 0;
    while k < |cols|
      invariant 0 <= k <= |cols|
      invariant r == ColumnQuantities(cols[..k])
    {
      assert cols[..k + 1][..k] == cols[..k];
      var col := cols[k];
      if col.Object? {
        var name := GetOrNull(col.members, "Name");
        if Truthy(name) {
          r := r + [ColumnQuantity(name)];
        }
      }
      k := k + 1;
    }
    assert cols[..|cols|] == cols;
  }

  method CollectSubmatrixQuantities(sms: seq<Value>) returns (r: seq<Value>)
    ensures r == SubmatrixQuantities(sms)
  {
    r := [];
    var j := 0;
    while j < |sms|
      invariant 0 <= j <= |sms|
      invariant r == SubmatrixQuantities(sms[..j])
    {
      assert sms[..j + 1][..j] == sms[..j];
      var sm := sms[j];
      if sm.Object? {
        var cols := SubmatrixColumns(sm.members);
        if cols.List? {
          var found := CollectColumnQuantities(cols.items);
          r := r + found;
        }
      }
      j := j + 1;
    }
    assert sms[..|sms|] == sms;
  }

  /** The loop over the five direct quantity sources. */
  method CollectDirectQuantities(m: seq<Member>) returns (r: seq<Value>)
    ensures r == DirectQuantities(m, QuantitySources)
  {
    r := [];
    var i := 0;
    while i < |QuantitySources|
      invariant 0 <= i <= |QuantitySources|
      invariant r == DirectQuantities(m, QuantitySources[..i])
    {
      assert QuantitySources[..i + 1][..i] == QuantitySources[..i];
      var data := GetOrNull(m, QuantitySources[i]);
      if data.List? {
        r := r + data.items;
      } else if data.Object? {
        r := r + [data];
      }
      i := i + 1;
    }
    assert QuantitySources[..|QuantitySources|] == QuantitySources;
  }

  /** The loop over the four submatrix sources. */
  method CollectFallbackQuantities(m: seq<Member>) returns (r: seq<Value>)
    ensures r == FallbackQuantities(m, SubmatrixSources)
  {
    r := [];
    var s := 0;
    while s < |SubmatrixSources|
      invariant 0 <= s <= |SubmatrixSources|
      invariant r == FallbackQuantities(m, SubmatrixSources[..s])
    {
      assert SubmatrixSources[..s + 1][..s] == SubmatrixSources[..s];
      var data := GetOrNull(m, SubmatrixSources[s]);
      if data.List? {
        var found := CollectSubmatrixQuantities(data.items);
        r := r + found;
      }
      s := s + 1;
    }
    assert SubmatrixSources[..|SubmatrixSources|] == SubmatrixSources;
  }

  /** `MeasurementHierarchyExplorer.get_available_quantities_for_measurement` */
  method GetAvailableQuantitiesForMeasurement(measurement: Value) returns (r: seq<Value>)
    ensures r == Quantities(measurement)
  {
    r := [];
    if !measurement.Object? {
      return;
    }
    r := CollectDirectQuantities(measurement.members);
    if r == [] {
      r := CollectFallbackQuantities(measurement.members);
    }
  }

  // ---------------------------------------------------------------- comprehension filters

  /** `a` is `b` with some elements left out, order kept. */
  predicate IsSubsequence(a: seq<Value>, b: seq<Value>) {
    a == [] || (b != [] && ((a[|a| - 1] == b[|b| - 1] && IsSubsequence(a[..|a| - 1], b[..|b| - 1]))
                            || IsSubsequence(a, b[..|b| - 1])))
  }

  lemma {:induction false} SubsequenceTransitive(a: seq<Value>, b: seq<Value>, c: seq<Value>)
    requires IsSubsequence(a, b) && IsSubsequence(b, c)
    ensures IsSubsequence(a, c)
    decreases |c|
  {
    if a != [] {
      var c' := c[..|c| - 1];
      if b[|b| - 1] == c[|c| - 1] && IsSubsequence(b[..|b| - 1], c') {
        if a[|a| - 1] == b[|b| - 1] && IsSubsequence(a[..|a| - 1], b[..|b| - 1]) {
          SubsequenceTransitive(a[..|a| - 1], b[..|b| - 1], c');
        } else {
          SubsequenceTransitive(a, b[..|b| - 1], c');
        }
      } else {
        SubsequenceTransitive(a, b, c');
      }
    }
  }

  lemma {:induction false} SubsequenceReflexive(a: seq<Value>)
    ensures IsSubsequence(a, a)
  {
    if a != [] {
      SubsequenceReflexive(a[..|a| - 1]);
    }
  }

  /** The tests the comprehensions apply to each record. */
  datatype Criterion =
    | TestNameIs(testName: string)
    | StatusIs(status: string)
    | NameContains(pattern: string)
    | HasQuantities(wanted: seq<string>)

  /** The condition of `[m for m in ms if <condition>]`, or the error it raises on `m`. */
  function Keeps(c: Criterion, m: Value): Result<bool> {
    match c
    case TestNameIs(t) => TestNameEquals(m, t)
    case StatusIs(st) => StatusEquals(m, st)
    case NameContains(p) => NameMatches(m, p)
    case HasQuantities(qs) => HasAllQuantities(m, qs)
  }

  /** `[m for m in ms if keep(m)]`, raising the first error `keep` raises. */
  function Filter(ms: seq<Value>, keep: Value -> Result<bool>): (r: Result<seq<Value>>)
    ensures r.Ok? <==> forall i :: 0 <= i < |ms| ==> keep(ms[i]).Ok?
    ensures r.Ok? ==> forall x :: x in r.value ==> x in ms && keep(x) == Ok(true)
    ensures r.Ok? ==> forall x :: x in ms && keep(x) == Ok(true) ==> x in r.value
  {
    if ms == [] then Ok([])
    else
      var init := ms[..|ms| - 1];
      var last := ms[|ms| - 1];
      assert forall i :: 0 <= i < |init| ==> init[i] == ms[i];
      match Filter(init, keep)
      case Err(e) => Err(e)
      case Ok(kept) =>
        match keep(last)
        case Err(e) => Err(e)
        case Ok(b) =>
          assert forall x :: x in ms ==> x in init || x == last;
          Ok(kept + (if b then [last] else []))
  }

  lemma {:induction false} FilterSubsequence(ms: seq<Value>, keep: Value -> Result<bool>)
    ensures Filter(ms, keep).Ok? ==> IsSubsequence(Filter(ms, keep).value, ms)
  {
    if ms != [] && Filter(ms, keep).Ok? {
      var init := ms[..|ms| - 1];
      FilterSubsequence(init, keep);
      var kept := Filter(init, keep).value;
      if keep(ms[|ms| - 1]) == Ok(true) {
        assert (kept + [ms[|ms| - 1]])[..|kept|] == kept;
      } else {
        assert Filter(ms, keep).value == kept;
      }
    }
  }

  /** The comprehension with the condition `c`: the records kept, in order, are those passing `c`. */
  function Select(ms: seq<Value>, c: Criterion): (r: Result<seq<Value>>)
    ensures r.Ok? <==> forall i :: 0 <= i < |ms| ==> Keeps(c, ms[i]).Ok?
    ensures r.Ok? ==> forall x :: x in r.value ==> x in ms && Keeps(c, x) == Ok(true)
    ensures r.Ok? ==> forall x :: x in ms && Keeps(c, x) == Ok(true) ==> x in r.value
    ensures r.Ok? ==> IsSubsequence(r.value, ms)
  {
    var keep := x => Keeps(c, x);
    FilterSubsequence(ms, keep);
    Filter(ms, keep)
  }

  /** `m.get("TestName") == test_name or m.get("Test", {}).get("Name") == test_name` */
  function TestNameEquals(m: Value, testName: string): Result<bool> {
    if !m.Object? then Err(NoAttribute(m, "get"))
    else if GetOrNull(m.members, "TestName") == Str(testName) then Ok(true)
    else
      var test := GetOr(m.members, "Test", Object([]));
      if test.Object? then Ok(GetOrNull(test.members, "Name") == Str(testName)) else Err(NoAttribute(test, "get"))
  }

  /** `m.get("Status") == status` */
  function StatusEquals(m: Value, status: string): Result<bool> {
    match ItemGetOr(m, "Status", Null)
    case Ok(v) => Ok(v == Str(status))
    case Err(e) => Err(e)
  }

  /** `p.lower() in str(m.get("Name", "")).lower() or p.lower() in str(m.get("Id", "")).lower()` */
  function NameMatches(m: Value, pattern: string): Result<bool> {
    if !m.Object? then Err(NoAttribute(m, "get"))
    else
      var p := Lower(pattern);
      Ok(Contains(Lower(ToStr(GetOr(m.members, "Name", Str("")))), p)
         || Contains(Lower(ToStr(GetOr(m.members, "Id", Str("")))), p))
  }

  /** The names `has_all_quantities` collects: `q.get("name", q.get("Name", ""))`, each hashable. */
  function QuantityKeys(qs: seq<Value>): (r: Result<seq<Value>>)
    ensures r.Ok? ==> |r.value| == |qs|
  {
    if qs == [] then Ok([])
    else
      match QuantityKeys(qs[..|qs| - 1])
      case Err(e) => Err(e)
      case Ok(names) =>
        var q := qs[|qs| - 1];
        if !q.Object? then Err(NoAttribute(q, "get"))
        else
          var name := GetOr(q.members, "name", GetOr(q.members, "Name", Str("")));
          if !Hashable(name) then Err(Unhashable(name)) else Ok(names + [name])
  }

  /** `all(qty in names for qty in wanted)` over the measurement's quantities. */
  function HasAllQuantities(m: Value, wanted: seq<string>): Result<bool> {
    match QuantityKeys(Quantities(m))
    case Err(e) => Err(e)
    case Ok(names) => Ok(forall i :: 0 <= i < |wanted| ==> Str(wanted[i]) in names)
  }

  /** A criterion left at `""` or `[]` (falsy, like `None`) is not applied. */
  function SelectIf(apply: bool, ms: Result<seq<Value>>, c: Criterion): Result<seq<Value>> {
    match ms
    case Err(e) => Err(e)
    case Ok(current) => if apply then Select(current, c) else Ok(current)
  }

  /** What `filter_measurements_by_criteria` returns, or the error it raises. */
  function FilteredByCriteria(ms: seq<Value>, testName: string, status: string, namePattern: string,
                              hasQuantities: seq<string>): Result<seq<Value>>
  {
    var byTest := SelectIf(testName != "", Ok(ms), TestNameIs(testName));
    var byStatus := SelectIf(status != "", byTest, StatusIs(status));
    var byName := SelectIf(namePattern != "", byStatus, NameContains(namePattern));
    var byQuantities := SelectIf(hasQuantities != [], byName, HasQuantities(hasQuantities));
    match byQuantities
    case Err(e) => Err(Wrapped("Failed to filter measurements: ", e))
    case Ok(kept) => Ok(kept)
  }

  /** `MeasurementHierarchyExplorer.filter_measurements_by_criteria` */
  method FilterMeasurementsByCriteria(ms: seq<Value>, testName: string, status: string, namePattern: string,
                                      hasQuantities: seq<string>) returns (r: Result<seq<Value>>)
    ensures r == FilteredByCriteria(ms, testName, status, namePattern, hasQuantities)
  {
    var filtered: Result<seq<Value>> := Ok(ms);
    filtered := SelectIf(testName != "", filtered, TestNameIs(testName));
    filtered := SelectIf(status != "", filtered, StatusIs(status));
    filtered := SelectIf(namePattern != "", filtered, NameContains(namePattern));
    filtered := SelectIf(hasQuantities != [], filtered, HasQuantities(hasQuantities));
    if filtered.Err? {
      return Err(Wrapped("Failed to filter measurements: ", filtered.error));
    }
    r := filtered;
  }

  /** The criteria a record must meet: each supplied one, and nothing for those left out. */
  predicate MeetsCriteria(x: Value, testName: string, status: string, namePattern: string, hasQuantities: seq<string>) {
    && (testName != "" ==> TestNameEquals(x, testName) == Ok(true))
    && (status != "" ==> StatusEquals(x, status) == Ok(true))
    && (namePattern != "" ==> NameMatches(x, namePattern) == Ok(true))
    && (hasQuantities != [] ==> HasAllQuantities(x, hasQuantities) == Ok(true))
  }

  lemma {:induction false} SelectIfProps(apply: bool, ms: Result<seq<Value>>, c: Criterion)
    requires SelectIf(apply, ms, c).Ok?
    ensures ms.Ok?
    ensures IsSubsequence(SelectIf(apply, ms, c).value, ms.value)
    ensures apply ==> forall x :: x in SelectIf(apply, ms, c).value ==> Keeps(c, x) == Ok(true)
    ensures forall x :: x in SelectIf(apply, ms, c).value ==> x in ms.value
    ensures forall x :: x in ms.value && (apply ==> Keeps(c, x) == Ok(true)) ==> x in SelectIf(apply, ms, c).value
  {
    if !apply {
      SubsequenceReflexive(ms.value);
    }
  }

  /**
   * A successful filter keeps, in input order, exactly the records that meet
   * every supplied criterion; a criterion left out excludes nothing.
   */
  lemma {:induction false} CriteriaFilter(ms: seq<Value>, testName: string, status: string, namePattern: string, hasQuantities: seq<string>)
    requires FilteredByCriteria(ms, testName, status, namePattern, hasQuantities).Ok?
    ensures var kept := FilteredByCriteria(ms, testName, status, namePattern, hasQuantities).value;
            && IsSubsequence(kept, ms)
            && (forall x :: x in kept ==> MeetsCriteria(x, testName, status, namePattern, hasQuantities))
            && (forall x :: x in ms && MeetsCriteria(x, testName, status, namePattern, hasQuantities) ==> x in kept)
  {
    var s1 := SelectIf(testName != "", Ok(ms), TestNameIs(testName));
    var s2 := SelectIf(status != "", s1, StatusIs(status));
    var s3 := SelectIf(namePattern != "", s2, NameContains(namePattern));
    var s4 := SelectIf(hasQuantities != [], s3, HasQuantities(hasQuantities));
    SelectIfProps(hasQuantities != [], s3, HasQuantities(hasQuantities));
    SelectIfProps(namePattern != "", s2, NameContains(namePattern));
    SelectIfProps(status != "", s1, StatusIs(status));
    SelectIfProps(testName != "", Ok(ms), TestNameIs(testName));
    CriteriaFilterOrder(ms, s1.value, s2.value, s3.value, s4.value);
  }

  lemma {:induction false} CriteriaFilterOrder(ms: seq<Value>, s1: seq<Value>, s2: seq<Value>, s3: seq<Value>, s4: seq<Value>)
    requires IsSubsequence(s1, ms) && IsSubsequence(s2, s1) && IsSubsequence(s3, s2) && IsSubsequence(s4, s3)
    ensures IsSubsequence(s4, ms)
  {
    SubsequenceTransitive(s2, s1, ms);
    SubsequenceTransitive(s3, s2, ms);
    SubsequenceTransitive(s4, s3, ms);
  }

  /** `MeasurementHierarchyExplorer.get_measurements_by_test`: no wrapping of errors. */
  function MeasurementsByTest(ms: seq<Value>, testName: string): (r: Result<seq<Value>>)
    ensures r.Ok? ==> IsSubsequence(r.value, ms)
    ensures r.Ok? ==> forall x :: x in ms ==> (x in r.value <==> TestNameEquals(x, testName) == Ok(true))
  {
    Select(ms, TestNameIs(testName))
  }

  /** Filtering by a test name alone selects what `get_measurements_by_test` selects. */
  lemma {:induction false} ByTestIsTestCriterion(ms: seq<Value>, testName: string)
    requires testName != ""
    ensures FilteredByCriteria(ms, testName, "", "", [])
            == match MeasurementsByTest(ms, testName)
               case Ok(kept) => Ok(kept)
               case Err(e) => Err(Wrapped("Failed to filter measurements: ", e))
  {
  }

  // ---------------------------------------------------------------- query_measurements_by_hierarchy

  /** `c.lower()` in the lower-cased `TestName`, or else in the lower-cased `Test.Name`. */
  function PathMatches(m: Value, component: string): Result<bool> {
    if !m.Object? then Err(NoAttribute(m, "get"))
    else
      var c := Lower(component);
      if Contains(Lower(ToStr(GetOr(m.members, "TestName", Str("")))), c) then Ok(true)
      else
        var test := GetOr(m.members, "Test", Object([]));
        if test.Object? then Ok(Contains(Lower(ToStr(GetOr(test.members, "Name", Str("")))), c))
        else Err(NoAttribute(test, "get"))
  }

  /** One pass of the loop: `[m for m in ms if <component matches m>]`. */
  function PathStep(ms: seq<Value>, component: string): (r: Result<seq<Value>>)
    ensures r.Ok? <==> forall i :: 0 <= i < |ms| ==> PathMatches(ms[i], component).Ok?
    ensures r.Ok? ==> forall x :: x in r.value ==> x in ms && PathMatches(x, component) == Ok(true)
    ensures r.Ok? ==> forall x :: x in ms && PathMatches(x, component) == Ok(true) ==> x in r.value
    ensures r.Ok? ==> IsSubsequence(r.value, ms)
  {
    var keep := x => PathMatches(x, component);
    FilterSubsequence(ms, keep);
    Filter(ms, keep)
  }

  /** The records left after filtering once per path component, in order. */
  function PathFiltered(ms: seq<Value>, path: seq<string>): Result<seq<Value>> {
    if path == [] then Ok(ms)
    else
      match PathFiltered(ms, path[..|path| - 1])
      case Err(e) => Err(e)
      case Ok(kept) => PathStep(kept, path[|path| - 1])
  }

  /** What `query_measurements_by_hierarchy` returns, or the error it raises. */
  function ByHierarchy(queryResult: Value, path: seq<string>): (r: Result<seq<Value>>)
    ensures path == [] ==> r == Ok(Extracted(queryResult))
  {
    var ms := Extracted(queryResult);
    if path == [] then Ok(ms)
    else
      match PathFiltered(ms, path)
      case Err(e) => Err(Wrapped("Failed to query by hierarchy: ", e))
      case Ok(kept) => Ok(kept)
  }

  /** Every component of `path` occurs, ignoring case, in the record's test name. */
  predicate MatchesPath(x: Value, path: seq<string>) {
    forall i :: 0 <= i < |path| ==> PathMatches(x, path[i]) == Ok(true)
  }

  lemma {:induction false} MatchesPathSnoc(x: Value, init: seq<string>, last: string)
    requires MatchesPath(x, init) && PathMatches(x, last) == Ok(true)
    ensures MatchesPath(x, init + [last])
  {
    var path := init + [last];
    forall i | 0 <= i < |path| ensures PathMatches(x, path[i]) == Ok(true) {
      if i < |init| {
        assert path[i] == init[i];
      }
    }
  }

  /** A record matching a path matches each shorter prefix of it and the last component. */
  lemma {:induction false} MatchesPathInit(x: Value, path: seq<string>)
    requires path != [] && MatchesPath(x, path)
    ensures MatchesPath(x, path[..|path| - 1]) && PathMatches(x, path[|path| - 1]) == Ok(true)
  {
    var init := path[..|path| - 1];
    forall i | 0 <= i < |init| ensures PathMatches(x, init[i]) == Ok(true) {
      assert init[i] == path[i];
    }
  }

  /** Every input record matching each component survives all the passes. */
  lemma {:induction false} PathFilteredKeeps(ms: seq<Value>, path: seq<string>, x: Value)
    requires PathFiltered(ms, path).Ok? && x in ms && MatchesPath(x, path)
    ensures x in PathFiltered(ms, path).value
  {
    if path != [] {
      var init, last := path[..|path| - 1], path[|path| - 1];
      MatchesPathInit(x, path);
      PathFilteredKeeps(ms, init, x);
    }
  }

  lemma {:induction false} PathFilteredMatches(ms: seq<Value>, path: seq<string>)
    requires PathFiltered(ms, path).Ok?
    ensures IsSubsequence(PathFiltered(ms, path).value, ms)
    ensures forall x :: x in PathFiltered(ms, path).value ==> MatchesPath(x, path)
    ensures forall x :: x in ms && MatchesPath(x, path) ==> x in PathFiltered(ms, path).value
  {
    forall x | x in ms && MatchesPath(x, path) ensures x in PathFiltered(ms, path).value {
      PathFilteredKeeps(ms, path, x);
    }
    if path == [] {
      SubsequenceReflexive(ms);
    } else {
      var init, last := path[..|path| - 1], path[|path| - 1];
      assert path == init + [last];
      PathFilteredMatches(ms, init);
      var kept := PathFiltered(ms, init).value;
      var out := PathStep(kept, last).value;
      assert PathFiltered(ms, path).value == out;
      SubsequenceTransitive(out, kept, ms);
      forall x | x in out ensures MatchesPath(x, path) {
        MatchesPathSnoc(x, init, last);
      }
    }
  }

  /**
   * The records returned are exactly the extracted records that name each
   * path component in their test name, ignoring case, in their order.
   */
  lemma {:induction false} HierarchyQueryMatches(queryResult: Value, path: seq<string>)
    requires ByHierarchy(queryResult, path).Ok?
    ensures IsSubsequence(ByHierarchy(queryResult, path).value, Extracted(queryResult))
    ensures forall x :: x in ByHierarchy(queryResult, path).value ==> MatchesPath(x, path)
    ensures forall x :: x in Extracted(queryResult) && MatchesPath(x, path) ==> x in ByHierarchy(queryResult, path).value
  {
    if path == [] {
      SubsequenceReflexive(Extracted(queryResult));
    } else {
      PathFilteredMatches(Extracted(queryResult), path);
    }
  }

  /** `MeasurementHierarchyExplorer.query_measurements_by_hierarchy` */
  method QueryMeasurementsByHierarchy(queryResult: Value, path: seq<string>) returns (r: Result<seq<Value>>)
    ensures r == ByHierarchy(queryResult, path)
  {
    var ms := ExtractMeasurementsFromQueryResult(queryResult);
    if path == [] {
      return Ok(ms);
    }
    var filtered := FilterByPath(ms, path);
    if filtered.Err? {
      return Err(Wrapped("Failed to query by hierarchy: ", filtered.error));
    }
    r := filtered;
  }

  /** The loop of `query_measurements_by_hierarchy`: one filtering pass per path component. */
  method FilterByPath(ms: seq<Value>, path: seq<string>) returns (r: Result<seq<Value>>)
    ensures r == PathFiltered(ms, path)
  {
    var filtered := ms;
    var i := 0;
    while i < |path|
      invariant 0 <= i <= |path|
      invariant PathFiltered(ms, path[..i]) == Ok(filtered)
    {
      assert path[..i + 1][..i] == path[..i];
      var next := PathStep(filtered, path[i]);
      if next.Err? {
        PathFilteredErr(ms, path, i + 1);
        return next;
      }
      filtered := next.value;
      i := i + 1;
    }
    assert path[..|path|] == path;
    r := Ok(filtered);
  }

  lemma {:induction false} PathFilteredErr(ms: seq<Value>, path: seq<string>, k: nat)
    requires k <= |path| && PathFiltered(ms, path[..k]).Err?
    ensures PathFiltered(ms, path) == PathFiltered(ms, path[..k])
    decreases |path| - k
  {
    if k < |path| {
      assert path[..k + 1][..k] == path[..k];
      PathFilteredErr(ms, path, k + 1);
    } else {
      assert path[..k] == path;
    }
  }
}
