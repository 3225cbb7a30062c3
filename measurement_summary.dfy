/**
 * `get_measurement_summary`, `get_unique_tests` and `get_unique_quantities`:
 * the per-record digest and the two sorted name listings.
 */
module MeasurementSummary {
  import opened Text
  import opened Json
  import opened Measurements
  import Sorting

  // ---------------------------------------------------------------- quantity names

  /** `q.get("name") or q.get("Name")` */
  function QuantityName(q: Value): (r: Result<Value>)
    ensures r.Ok? <==> q.Object?
    ensures r.Err? ==> r.error == NoAttribute(q, "get")
  {
    if !q.Object? then Err(NoAttribute(q, "get"))
    else
      var lower := GetOrNull(q.members, "name");
      Ok(if Truthy(lower) then lower else GetOrNull(q.members, "Name"))
  }

  /** `[q.get("name") or q.get("Name") for q in quantities]` */
  function QuantityNames(qs: seq<Value>): (r: Result<seq<Value>>)
    ensures r.Ok? <==> forall i :: 0 <= i < |qs| ==> qs[i].Object?
    ensures r.Ok? ==> |r.value| == |qs| && forall i :: 0 <= i < |qs| ==> r.value[i] == QuantityName(qs[i]).value
  {
    if qs == [] then Ok([])
    else
      var init := qs[..|qs| - 1];
      assert forall i :: 0 <= i < |init| ==> init[i] == qs[i];
      match QuantityNames(init)
      case Err(e) => Err(e)
      case Ok(names) =>
        match QuantityName(qs[|qs| - 1])
        case Err(e) => Err(e)
        case Ok(name) => Ok(names + [name])
  }

  // ---------------------------------------------------------------- get_measurement_summary

  const MetadataKeys: seq<string> := ["Description", "Comment", "Campaign", "UserComment", "CreatedDate", "ModifiedDate"]

  /** The keys the summary counts submatrices under; unlike the quantities fallback, not `SubMatrices`. */
  const SummarySubmatrixSources: seq<string> := ["submatrices", "AoSubmatrix", "Submatrices"]

  /** The summary dict, with its keys as fields. */
  datatype Summary = Summary(
    id: Value, name: Value, status: Value, date: Value, testName: Value,
    numSubmatrices: nat, numQuantities: nat, metadata: seq<Member>, quantityNames: seq<Value>)

  /** `key in measurement and isinstance(measurement[key], list)` */
  predicate ListAt(m: seq<Member>, key: string) {
    HasKey(m, key) && Get(m, key).value.List?
  }

  /** The length of the first source holding a list, or 0. */
  function SubmatrixCount(m: seq<Member>, sources: seq<string>): (r: nat)
    ensures (forall i :: 0 <= i < |sources| ==> !ListAt(m, sources[i])) ==> r == 0
  {
    if sources == [] then 0
    else if ListAt(m, sources[0]) then |Get(m, sources[0]).value.items|
    else SubmatrixCount(m, sources[1..])
  }

  /** The count comes from the first source that holds a list; later ones are not looked at. */
  lemma {:induction false} SubmatrixCountFirst(m: seq<Member>, sources: seq<string>, i: nat)
    requires i < |sources| && ListAt(m, sources[i])
    requires forall j :: 0 <= j < i ==> !ListAt(m, sources[j])
    ensures SubmatrixCount(m, sources) == |Get(m, sources[i]).value.items|
  {
    if i > 0 {
      assert !ListAt(m, sources[0]);
      SubmatrixCountFirst(m, sources[1..], i - 1);
    }
  }

  /** `summary["metadata"][key] = measurement[key]` for each listed key present. */
  function Metadata(m: seq<Member>, keys: seq<string>): seq<Member> {
    if keys == [] then []
    else
      var key := keys[|keys| - 1];
      var before := Metadata(m, keys[..|keys| - 1]);
      if HasKey(m, key) then DictSet(before, key, Get(m, key).value) else before
  }

  /** A metadata entry exists for exactly the listed keys the record has, with the record's value. */
  lemma {:induction false} MetadataLookup(m: seq<Member>, keys: seq<string>, k: string)
    ensures Get(Metadata(m, keys), k) == if k in keys then Get(m, k) else None
  {
    if keys != [] {
      var init, key := keys[..|keys| - 1], keys[|keys| - 1];
      assert keys == init + [key];
      MetadataLookup(m, init, k);
      if HasKey(m, key) {
        DictSetGet(Metadata(m, init), key, Get(m, key).value, k);
      }
    }
  }

  /** What `get_measurement_summary` returns, or the error it raises. */
  function MeasurementSummaryOf(measurement: Value): (r: Result<Summary>)
    ensures !measurement.Object? ==> r == Err(Wrapped("Failed to get measurement summary: ", NoAttribute(measurement, "get")))
    ensures r.Ok? ==> r.value.numQuantities == |Quantities(measurement)| == |r.value.quantityNames|
    ensures r.Ok? ==> TestNameOf(measurement) == Ok(r.value.testName)
    ensures r.Ok? ==> r.value.numSubmatrices == SubmatrixCount(measurement.members, SummarySubmatrixSources)
  {
    if !measurement.Object? then Err(Wrapped("Failed to get measurement summary: ", NoAttribute(measurement, "get")))
    else
      var m := measurement.members;
      match TestNameOf(measurement)
      case Err(e) => Err(Wrapped("Failed to get measurement summary: ", e))
      case Ok(testName) =>
        var qs := Quantities(measurement);
        match QuantityNames(qs)
        case Err(e) => Err(Wrapped("Failed to get measurement summary: ", e))
        case Ok(names) =>
          Ok(Summary(GetOrNull(m, "Id"), GetOrNull(m, "Name"), GetOrNull(m, "Status"), GetOrNull(m, "Date"),
                     testName, SubmatrixCount(m, SummarySubmatrixSources), |qs|, Metadata(m, MetadataKeys), names))
  }

  /** The summary's metadata holds exactly the record's listed metadata fields. */
  lemma {:induction false} SummaryMetadata(measurement: Value, k: string)
    requires MeasurementSummaryOf(measurement).Ok?
    ensures Get(MeasurementSummaryOf(measurement).value.metadata, k)
            == if k in MetadataKeys then Get(measurement.members, k) else None
  {
    MetadataLookup(measurement.members, MetadataKeys, k);
  }

  /**
   * `num_submatrices` is the length of the list under the first of
   * `submatrices`, `AoSubmatrix`, `Submatrices` that holds one, and 0 when
   * none does, whatever the other keys hold.
   */
  lemma {:induction false} SummarySubmatrices(measurement: Value)
    requires MeasurementSummaryOf(measurement).Ok?
    ensures var n := MeasurementSummaryOf(measurement).value.numSubmatrices;
            var m := measurement.members;
            && (!ListAt(m, "submatrices") && !ListAt(m, "AoSubmatrix") && !ListAt(m, "Submatrices") ==> n == 0)
            && (ListAt(m, "submatrices") ==> n == |Get(m, "submatrices").value.items|)
            && (!ListAt(m, "submatrices") && ListAt(m, "AoSubmatrix") ==> n == |Get(m, "AoSubmatrix").value.items|)
            && (!ListAt(m, "submatrices") && !ListAt(m, "AoSubmatrix") && ListAt(m, "Submatrices") ==>
                  n == |Get(m, "Submatrices").value.items|)
  {
    var m := measurement.members;
    var sources := SummarySubmatrixSources;
    if ListAt(m, sources[0]) {
      SubmatrixCountFirst(m, sources, 0);
    } else if ListAt(m, sources[1]) {
      SubmatrixCountFirst(m, sources, 1);
    } else if ListAt(m, sources[2]) {
      SubmatrixCountFirst(m, sources, 2);
    }
  }

  /** A record holding only two submatrices under `SubMatrices`. */
  const SubMatricesOnly: seq<Member> := [Member("SubMatrices", List([Null, Null]))]

  /** That record's submatrices have no columns, so it has no quantities. */
  lemma {:induction false} SubMatricesOnlyQuantities()
    ensures Quantities(Object(SubMatricesOnly)) == []
  {
    var m := SubMatricesOnly;
    assert forall k :: k != "SubMatrices" ==> GetOrNull(m, k) == Null;
    DirectQuantitiesAbsent(m, QuantitySources);
    assert SubmatrixQuantities([Null, Null]) == [];
    assert forall k :: SubmatrixQuantities(ListItems(GetOrNull(m, k))) == [];
    FallbackQuantitiesNone(m, SubmatrixSources);
  }

  /** A list under `SubMatrices` alone is not counted by the summary. */
  lemma {:induction false} SubMatricesNotCounted()
    ensures var r := MeasurementSummaryOf(Object(SubMatricesOnly));
            r.Ok? && r.value.numSubmatrices == 0
  {
    var m := SubMatricesOnly;
    SubMatricesOnlyQuantities();
    assert GetOrNull(m, "TestName") == Null && GetOr(m, "Test", Object([])) == Object([]);
    assert !HasKey(m, "submatrices") && !HasKey(m, "AoSubmatrix") && !HasKey(m, "Submatrices");
    SummarySubmatrices(Object(m));
  }

  /** The submatrix loop: stop at the first source holding a list. */
  method CountSubmatrices(m: seq<Member>) returns (n: nat)
    ensures n == SubmatrixCount(m, SummarySubmatrixSources)
  {
    n := 0;
    var i := 0;
    while i < |SummarySubmatrixSources|
      invariant 0 <= i <= |SummarySubmatrixSources|
      invariant SubmatrixCount(m, SummarySubmatrixSources) == SubmatrixCount(m, SummarySubmatrixSources[i..])
    {
      var key := SummarySubmatrixSources[i];
      if HasKey(m, key) {
        var data := Get(m, key).value;
        if data.List? {
          n := |data.items|;
          break;
        }
      }
      assert SummarySubmatrixSources[i..][1..] == SummarySubmatrixSources[i + 1..];
      i := i + 1;
    }
  }

  /** The metadata loop. */
  method CollectMetadata(m: seq<Member>) returns (metadata: seq<Member>)
    ensures metadata == Metadata(m, MetadataKeys)
  {
    metadata := [];
    var i := 0;
    while i < |MetadataKeys|
      invariant 0 <= i <= |MetadataKeys|
      invariant metadata == Metadata(m, MetadataKeys[..i])
    {
      assert MetadataKeys[..i + 1][..i] == MetadataKeys[..i];
      var key := MetadataKeys[i];
      if HasKey(m, key) {
        metadata := DictSet(metadata, key, Get(m, key).value);
      }
      i := i + 1;
    }
    assert MetadataKeys[..|MetadataKeys|] == MetadataKeys;
  }

  /** The `quantity_names` comprehension. */
  method CollectQuantityNames(qs: seq<Value>) returns (r: Result<seq<Value>>)
    ensures r == QuantityNames(qs)
  {
    var names: seq<Value> := [];
    var i := 0;
    while i < |qs|
      invariant 0 <= i <= |qs|
      invariant QuantityNames(qs[..i]) == Ok(names)
    {
      assert qs[..i + 1][..i] == qs[..i];
      var name := QuantityName(qs[i]);
      if name.Err? {
        QuantityNamesErr(qs, i + 1);
        return Err(name.error);
      }
      names := names + [name.value];
      i := i + 1;
    }
    assert qs[..|qs|] == qs;
    r := Ok(names);
  }

  lemma {:induction false} QuantityNamesErr(qs: seq<Value>, k: nat)
    requires k <= |qs| && QuantityNames(qs[..k]).Err?
    ensures QuantityNames(qs) == QuantityNames(qs[..k])
    decreases |qs| - k
  {
    if k < |qs| {
      assert qs[..k + 1][..k] == qs[..k];
      QuantityNamesErr(qs, k + 1);
    } else {
      assert qs[..k] == qs;
    }
  }

  /** `MeasurementHierarchyExplorer.get_measurement_summary` */
  method GetMeasurementSummary(measurement: Value) returns (r: Result<Summary>)
    ensures r == MeasurementSummaryOf(measurement)
  {
    if !measurement.Object? {
      return Err(Wrapped("Failed to get measurement summary: ", NoAttribute(measurement, "get")));
    }
    var m := measurement.members;
    var testName := TestNameOf(measurement);
    if testName.Err? {
      return Err(Wrapped("Failed to get measurement summary: ", testName.error));
    }
    var numSubmatrices := CountSubmatrices(m);
    var quantities := GetAvailableQuantitiesForMeasurement(measurement);
    var names := CollectQuantityNames(quantities);
    if names.Err? {
      return Err(Wrapped("Failed to get measurement summary: ", names.error));
    }
    var metadata := CollectMetadata(m);
    r := Ok(Summary(GetOrNull(m, "Id"), GetOrNull(m, "Name"), GetOrNull(m, "Status"), GetOrNull(m, "Date"),
                    testName.value, numSubmatrices, |quantities|, metadata, names.value));
  }

  // ---------------------------------------------------------------- get_unique_tests, get_unique_quantities

  /** `sorted(names)`: string names come out sorted; other names are kept only as a set. */
  datatype Names = SortedNames(names: seq<string>) | Unordered(values: set<Value>)

  /** `if name: names.add(name)`: falsy names are skipped, unhashable ones raise. */
  function AddName(acc: Result<seq<Value>>, name: Value): Result<seq<Value>> {
    match acc
    case Err(e) => Err(e)
    case Ok(names) =>
      if !Truthy(name) then Ok(names)
      else if !Hashable(name) then Err(Unhashable(name))
      else Ok(names + [name])
  }

  /** `for m in ms: name = f(m); if name: names.add(name)`, as a list in input order. */
  function Gather(ms: seq<Value>, f: Value -> Result<Value>): Result<seq<Value>> {
    if ms == [] then Ok([])
    else
      match Gather(ms[..|ms| - 1], f)
      case Err(e) => Err(e)
      case Ok(names) =>
        match f(ms[|ms| - 1])
        case Err(e) => Err(e)
        case Ok(t) => AddName(Ok(names), t)
  }

  /** The names `get_unique_tests` adds to its set, in input order, or the error it raises. */
  function TestNames(ms: seq<Value>): Result<seq<Value>> {
    Gather(ms, TestNameOf)
  }

  /** `for m in ms: for q in parts(m): name = f(q); if name: names.add(name)`, as a list. */
  function GatherEach(ms: seq<Value>, parts: Value -> seq<Value>, f: Value -> Result<Value>): Result<seq<Value>> {
    if ms == [] then Ok([])
    else
      match GatherEach(ms[..|ms| - 1], parts, f)
      case Err(e) => Err(e)
      case Ok(before) =>
        match Gather(parts(ms[|ms| - 1]), f)
        case Err(e) => Err(e)
        case Ok(names) => Ok(before + names)
  }

  /** `x` is a truthy `f` of one of `parts(m)`. */
  predicate NamedIn(m: Value, x: Value, parts: Value -> seq<Value>, f: Value -> Result<Value>) {
    Truthy(x) && exists j :: 0 <= j < |parts(m)| && f(parts(m)[j]) == Ok(x)
  }

  /** The names `get_unique_quantities` adds to its set, in input order, or the error it raises. */
  function AllQuantityNames(ms: seq<Value>): Result<seq<Value>> {
    GatherEach(ms, Quantities, QuantityName)
  }

  lemma {:induction false} GatherFrom(ms: seq<Value>, f: Value -> Result<Value>, x: Value)
    requires Gather(ms, f).Ok?
    ensures x in Gather(ms, f).value <==> Truthy(x) && exists i :: 0 <= i < |ms| && f(ms[i]) == Ok(x)
  {
    if ms != [] {
      var init := ms[..|ms| - 1];
      GatherFrom(init, f, x);
      if exists i :: 0 <= i < |ms| && f(ms[i]) == Ok(x) {
        var i :| 0 <= i < |ms| && f(ms[i]) == Ok(x);
        if i < |init| {
          assert init[i] == ms[i];
        }
      }
      if exists i :: 0 <= i < |init| && f(init[i]) == Ok(x) {
        var i :| 0 <= i < |init| && f(init[i]) == Ok(x);
        assert ms[i] == init[i];
      }
    }
  }

  lemma {:induction false} GatherOk(ms: seq<Value>, f: Value -> Result<Value>)
    ensures Gather(ms, f).Ok? <==>
              forall i :: 0 <= i < |ms| ==> f(ms[i]).Ok? && (Truthy(f(ms[i]).value) ==> Hashable(f(ms[i]).value))
  {
    if ms != [] {
      var init := ms[..|ms| - 1];
      GatherOk(init, f);
      assert forall i :: 0 <= i < |init| ==> init[i] == ms[i];
    }
  }

  /** Each test name listed is the truthy test name of one of the records. */
  lemma {:induction false} TestNamesFromRecords(ms: seq<Value>, x: Value)
    requires TestNames(ms).Ok?
    ensures x in TestNames(ms).value <==> Truthy(x) && exists i :: 0 <= i < |ms| && TestNameOf(ms[i]) == Ok(x)
  {
    GatherFrom(ms, TestNameOf, x);
  }

  /** Listing tests raises exactly when some record is not a dict or has an unusable test name. */
  lemma {:induction false} TestNamesOk(ms: seq<Value>)
    ensures TestNames(ms).Ok? <==>
              forall i :: 0 <= i < |ms| ==> TestNameOf(ms[i]).Ok? && (Truthy(TestNameOf(ms[i]).value) ==> Hashable(TestNameOf(ms[i]).value))
  {
    GatherOk(ms, TestNameOf);
  }

  /** `sorted(set)` */
  method SortNames(seen: set<Value>) returns (r: Names)
    ensures r.SortedNames? <==> forall v :: v in seen ==> v.Str?
    ensures r.SortedNames? ==> Sorting.StrictlyAscending(r.names) && forall s :: s in r.names <==> Str(s) in seen
    ensures r.Unordered? ==> r.values == seen
  {
    if forall v :: v in seen ==> v.Str? {
      var strings := set v | v in seen && v.Str? :: v.s;
      var sorted := Sorting.SortedSet(strings);
      r := SortedNames(sorted);
    } else {
      r := Unordered(seen);
    }
  }

  /** `MeasurementHierarchyExplorer.get_unique_tests`: not wrapped, the error propagates as raised. */
  method GetUniqueTests(ms: seq<Value>) returns (r: Result<Names>)
    ensures r.Err? <==> TestNames(ms).Err?
    ensures r.Err? ==> r.error == TestNames(ms).error
    ensures r.Ok? && r.value.SortedNames? ==>
              Sorting.StrictlyAscending(r.value.names) && forall s :: s in r.value.names <==> Str(s) in TestNames(ms).value
    ensures r.Ok? && r.value.Unordered? ==> forall v :: v in r.value.values <==> v in TestNames(ms).value
  {
    var seen: set<Value> := {};
    var i := 0;
    while i < |ms|
      invariant 0 <= i <= |ms|
      invariant TestNames(ms[..i]).Ok?
      invariant forall v :: v in seen <==> v in TestNames(ms[..i]).value
    {
      assert ms[..i + 1][..i] == ms[..i];
      var t := TestNameOf(ms[i]);
      if t.Err? {
        GatherErr(ms, TestNameOf, i + 1);
        return Err(t.error);
      }
      if Truthy(t.value) {
        if !Hashable(t.value) {
          GatherErr(ms, TestNameOf, i + 1);
          return Err(Unhashable(t.value));
        }
        seen := seen + {t.value};
      }
      i := i + 1;
    }
    assert ms[..|ms|] == ms;
    var sorted := SortNames(seen);
    r := Ok(sorted);
  }

  lemma {:induction false} GatherErr(ms: seq<Value>, f: Value -> Result<Value>, k: nat)
    requires k <= |ms| && Gather(ms[..k], f).Err?
    ensures Gather(ms, f) == Gather(ms[..k], f)
    decreases |ms| - k
  {
    if k < |ms| {
      assert ms[..k + 1][..k] == ms[..k];
      GatherErr(ms, f, k + 1);
    } else {
      assert ms[..k] == ms;
    }
  }

  lemma {:induction false} GatherEachErr(ms: seq<Value>, parts: Value -> seq<Value>, f: Value -> Result<Value>, k: nat)
    requires k <= |ms| && GatherEach(ms[..k], parts, f).Err?
    ensures GatherEach(ms, parts, f) == GatherEach(ms[..k], parts, f)
    decreases |ms| - k
  {
    if k < |ms| {
      assert ms[..k + 1][..k] == ms[..k];
      GatherEachErr(ms, parts, f, k + 1);
    } else {
      assert ms[..k] == ms;
    }
  }

  lemma {:induction false} GatherEachFrom(ms: seq<Value>, parts: Value -> seq<Value>, f: Value -> Result<Value>, x: Value)
    requires GatherEach(ms, parts, f).Ok?
    ensures x in GatherEach(ms, parts, f).value <==> exists i :: 0 <= i < |ms| && NamedIn(ms[i], x, parts, f)
  {
    if ms != [] {
      var init, last := ms[..|ms| - 1], ms[|ms| - 1];
      GatherEachFrom(init, parts, f, x);
      GatherFrom(parts(last), f, x);
      if exists i :: 0 <= i < |ms| && NamedIn(ms[i], x, parts, f) {
        var i :| 0 <= i < |ms| && NamedIn(ms[i], x, parts, f);
        if i < |init| {
          assert init[i] == ms[i];
        }
      }
      if exists i :: 0 <= i < |init| && NamedIn(init[i], x, parts, f) {
        var i :| 0 <= i < |init| && NamedIn(init[i], x, parts, f);
        assert ms[i] == init[i];
      }
    }
  }

  /** Each quantity name listed is the truthy name of a quantity of one of the records. */
  lemma {:induction false} AllQuantityNamesFrom(ms: seq<Value>, x: Value)
    requires AllQuantityNames(ms).Ok?
    ensures x in AllQuantityNames(ms).value <==> exists i :: 0 <= i < |ms| && NamedIn(ms[i], x, Quantities, QuantityName)
  {
    GatherEachFrom(ms, Quantities, QuantityName, x);
  }

  /** The inner loop over one record's quantities, adding to `seen`. */
  method AddQuantityNames(seen: set<Value>, qs: seq<Value>) returns (r: Result<set<Value>>)
    ensures r.Err? <==> Gather(qs, QuantityName).Err?
    ensures r.Err? ==> r.error == Gather(qs, QuantityName).error
    ensures r.Ok? ==> forall v :: v in r.value <==> v in seen || v in Gather(qs, QuantityName).value
  {
    var names := seen;
    var j := 0;
    while j < |qs|
      invariant 0 <= j <= |qs|
      invariant Gather(qs[..j], QuantityName).Ok?
      invariant forall v :: v in names <==> v in seen || v in Gather(qs[..j], QuantityName).value
    {
      assert qs[..j + 1][..j] == qs[..j];
      var n := QuantityName(qs[j]);
      if n.Err? {
        GatherErr(qs, QuantityName, j + 1);
        return Err(n.error);
      }
      if Truthy(n.value) {
        if !Hashable(n.value) {
          GatherErr(qs, QuantityName, j + 1);
          return Err(Unhashable(n.value));
        }
        names := names + {n.value};
      }
      j := j + 1;
    }
    assert qs[..|qs|] == qs;
    r := Ok(names);
  }

  /** `MeasurementHierarchyExplorer.get_unique_quantities`: not wrapped, the error propagates as raised. */
  method GetUniqueQuantities(ms: seq<Value>) returns (r: Result<Names>)
    ensures r.Err? <==> AllQuantityNames(ms).Err?
    ensures r.Err? ==> r.error == AllQuantityNames(ms).error
    ensures r.Ok? && r.value.SortedNames? ==>
              Sorting.StrictlyAscending(r.value.names) && forall s :: s in r.value.names <==> Str(s) in AllQuantityNames(ms).value
    ensures r.Ok? && r.value.Unordered? ==> forall v :: v in r.value.values <==> v in AllQuantityNames(ms).value
  {
    var seen: set<Value> := {};
    var i := 0;
    while i < |ms|
      invariant 0 <= i <= |ms|
      invariant AllQuantityNames(ms[..i]).Ok?
      invariant forall v :: v in seen <==> v in AllQuantityNames(ms[..i]).value
    {
      assert ms[..i + 1][..i] == ms[..i];
      var quantities := GetAvailableQuantitiesForMeasurement(ms[i]);
      var added := AddQuantityNames(seen, quantities);
      if added.Err? {
        GatherEachErr(ms, Quantities, QuantityName, i + 1);
        return Err(added.error);
      }
      seen := added.value;
      i := i + 1;
    }
    assert ms[..|ms|] == ms;
    var sorted := SortNames(seen);
    r := Ok(sorted);
  }
}
