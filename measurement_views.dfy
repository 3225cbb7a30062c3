/**
 * The grouping views of `MeasurementHierarchyExplorer`: the hierarchy and the
 * index, both built as dicts of lists keyed by test name, status or name.
 */
module MeasurementViews {
  import opened Text
  import opened Json
  import opened Measurements

  // ---------------------------------------------------------------- dicts of lists

  /** One entry `key: [items...]` of a dict of lists; the key is any hashable value. */
  datatype Group = Group(key: Value, items: seq<Value>)

  /** The position of the entry whose key `==` the given one. */
  function FindGroup(groups: seq<Group>, key: Value): (r: Option<nat>)
    ensures r.Some? ==> r.value < |groups| && KeyEq(groups[r.value].key, key)
                        && forall j :: 0 <= j < r.value ==> !KeyEq(groups[j].key, key)
    ensures r.None? ==> forall j :: 0 <= j < |groups| ==> !KeyEq(groups[j].key, key)
  {
    if groups == [] then None
    else if KeyEq(groups[0].key, key) then Some(0)
    else
      match FindGroup(groups[1..], key)
      case Some(i) => Some(i + 1)
      case None => None
  }

  /** `if key not in d: d[key] = []`, then `d[key].append(item)`. */
  function AddToGroup(groups: seq<Group>, key: Value, item: Value): (r: Result<seq<Group>>)
    ensures r.Err? <==> !Hashable(key)
    ensures r.Err? ==> r.error == Unhashable(key)
  {
    if !Hashable(key) then Err(Unhashable(key))
    else
      match FindGroup(groups, key)
      case Some(i) => Ok(groups[i := Group(groups[i].key, groups[i].items + [item])])
      case None => Ok(groups + [Group(key, [item])])
  }

  /** `d.get(key, [])` */
  function GroupItems(groups: seq<Group>, key: Value): seq<Value> {
    match FindGroup(groups, key)
    case Some(i) => groups[i].items
    case None => []
  }

  function TotalItems(groups: seq<Group>): nat {
    if groups == [] then 0 else TotalItems(groups[..|groups| - 1]) + |groups[|groups| - 1].items|
  }

  /** Python's `==` on hashable values is an equivalence. */
  lemma {:induction false} KeyEqEquivalence(a: Value, b: Value, c: Value)
    ensures KeyEq(a, b) ==> KeyEq(b, a)
    ensures KeyEq(a, b) && KeyEq(b, c) ==> KeyEq(a, c)
  {
  }

  /** Lookup depends on the keys only. */
  lemma {:induction false} FindGroupSameKeys(g1: seq<Group>, g2: seq<Group>, key: Value)
    requires |g1| == |g2| && forall j :: 0 <= j < |g1| ==> g1[j].key == g2[j].key
    ensures FindGroup(g1, key) == FindGroup(g2, key)
  {
  }

  /** Keys equal to each other find the same entry. */
  lemma {:induction false} FindGroupEquivalent(groups: seq<Group>, a: Value, b: Value)
    requires KeyEq(a, b)
    ensures FindGroup(groups, a) == FindGroup(groups, b)
  {
    forall g: Value ensures KeyEq(g, a) <==> KeyEq(g, b) {
      KeyEqEquivalence(g, a, b);
      KeyEqEquivalence(g, b, a);
      KeyEqEquivalence(a, b, b);
    }
  }

  /** Appending `item` under `key` adds it to just that key's list. */
  lemma {:induction false} AddToGroupItems(groups: seq<Group>, key: Value, item: Value, k: Value)
    requires Hashable(key)
    ensures GroupItems(AddToGroup(groups, key, item).value, k)
            == GroupItems(groups, k) + (if KeyEq(key, k) then [item] else [])
  {
    match FindGroup(groups, key)
    case Some(i) => AppendToExisting(groups, key, i, item, k);
    case None => AppendNewGroup(groups, key, item, k);
  }

  lemma {:induction false} AppendToExisting(groups: seq<Group>, key: Value, i: nat, item: Value, k: Value)
    requires FindGroup(groups, key) == Some(i)
    ensures var after := groups[i := Group(groups[i].key, groups[i].items + [item])];
            GroupItems(after, k) == GroupItems(groups, k) + (if KeyEq(key, k) then [item] else [])
  {
    var after := groups[i := Group(groups[i].key, groups[i].items + [item])];
    FindGroupSameKeys(groups, after, k);
    if KeyEq(key, k) {
      FindGroupEquivalent(groups, key, k);
    } else {
      KeyEqEquivalence(groups[i].key, key, k);
      assert !KeyEq(groups[i].key, k);
    }
  }

  /** Lookup in a list with one more entry at the end. */
  lemma {:induction false} FindGroupAppend(groups: seq<Group>, g: Group, k: Value)
    ensures FindGroup(groups + [g], k)
            == match FindGroup(groups, k)
               case Some(i) => Some(i)
               case None => if KeyEq(g.key, k) then Some(|groups|) else None
  {
    if groups != [] {
      assert (groups + [g])[1..] == groups[1..] + [g];
      FindGroupAppend(groups[1..], g, k);
    }
  }

  lemma {:induction false} AppendNewGroup(groups: seq<Group>, key: Value, item: Value, k: Value)
    requires FindGroup(groups, key) == None
    ensures var after := groups + [Group(key, [item])];
            GroupItems(after, k) == GroupItems(groups, k) + (if KeyEq(key, k) then [item] else [])
  {
    FindGroupAppend(groups, Group(key, [item]), k);
    if KeyEq(key, k) {
      FindGroupEquivalent(groups, key, k);
    }
  }

  lemma {:induction false} TotalItemsUpdate(groups: seq<Group>, i: nat, g: Group)
    requires i < |groups|
    ensures TotalItems(groups[i := g]) == TotalItems(groups) - |groups[i].items| + |g.items|
  {
    if i < |groups| - 1 {
      assert groups[i := g][..|groups| - 1] == groups[..|groups| - 1][i := g];
      TotalItemsUpdate(groups[..|groups| - 1], i, g);
    } else {
      assert groups[i := g][..|groups| - 1] == groups[..|groups| - 1];
    }
  }

  /** Each append adds exactly one item. */
  lemma {:induction false} AddToGroupTotal(groups: seq<Group>, key: Value, item: Value)
    requires Hashable(key)
    ensures TotalItems(AddToGroup(groups, key, item).value) == TotalItems(groups) + 1
  {
    match FindGroup(groups, key)
    case Some(i) =>
      TotalItemsUpdate(groups, i, Group(groups[i].key, groups[i].items + [item]));
    case None =>
      assert (groups + [Group(key, [item])])[..|groups|] == groups;
  }

  /** A key that is not there yet is added with the item's own key. */
  lemma {:induction false} AddToGroupKeys(groups: seq<Group>, key: Value, item: Value, P: Value -> bool)
    requires Hashable(key) && P(key)
    requires forall j :: 0 <= j < |groups| ==> P(groups[j].key)
    ensures var after := AddToGroup(groups, key, item).value;
            forall j :: 0 <= j < |after| ==> P(after[j].key)
  {
  }

  // ---------------------------------------------------------------- build_measurement_hierarchy

  /** `meas.get("Status", "Unknown")` */
  function StatusKey(m: seq<Member>): Value {
    GetOr(m, "Status", Str("Unknown"))
  }

  /** The two dicts of lists the loop fills. */
  datatype Buckets = Buckets(byTest: seq<Group>, byStatus: seq<Group>)

  /** One pass of the loop body: non-dicts are skipped, a falsy test name goes unlisted. */
  function GroupStep(b: Buckets, meas: Value): Result<Buckets> {
    if !meas.Object? then Ok(b)
    else
      match TestNameOf(meas)
      case Err(e) => Err(e)
      case Ok(testName) =>
        var byTest := if Truthy(testName) then AddToGroup(b.byTest, testName, meas) else Ok(b.byTest);
        match byTest
        case Err(e) => Err(e)
        case Ok(tests) =>
          match AddToGroup(b.byStatus, StatusKey(meas.members), meas)
          case Err(e) => Err(e)
          case Ok(statuses) => Ok(Buckets(tests, statuses))
  }

  function Grouped(ms: seq<Value>): Result<Buckets> {
    if ms == [] then Ok(Buckets([], []))
    else
      match Grouped(ms[..|ms| - 1])
      case Err(e) => Err(e)
      case Ok(b) => GroupStep(b, ms[|ms| - 1])
  }

  datatype Hierarchy = Hierarchy(byTest: seq<Group>, byDateRange: seq<Group>, byStatus: seq<Group>, totalMeasurements: int)

  /** What `build_measurement_hierarchy` returns, or the error it raises. */
  function MeasurementHierarchy(ms: seq<Value>): (r: Result<Hierarchy>)
    ensures r.Ok? ==> r.value.totalMeasurements == |ms| && r.value.byDateRange == []
  {
    match Grouped(ms)
    case Err(e) => Err(Wrapped("Failed to build hierarchy: ", e))
    case Ok(b) => Ok(Hierarchy(b.byTest, [], b.byStatus, |ms|))
  }

  /** The dict records whose status `==` `k`, in input order. */
  function WithStatus(ms: seq<Value>, k: Value): seq<Value> {
    if ms == [] then []
    else
      var last := ms[|ms| - 1];
      WithStatus(ms[..|ms| - 1], k) + (if last.Object? && KeyEq(StatusKey(last.members), k) then [last] else [])
  }

  /** The dict records with a truthy test name `==` `k`, in input order. */
  function WithTestName(ms: seq<Value>, k: Value): seq<Value> {
    if ms == [] then []
    else
      var last := ms[|ms| - 1];
      var t := TestNameOf(last);
      WithTestName(ms[..|ms| - 1], k) + (if t.Ok? && last.Object? && Truthy(t.value) && KeyEq(t.value, k) then [last] else [])
  }

  /**
   * Every dict record lands in exactly one status list (the lists together
   * hold as many records as there are dicts), the list under a status holds
   * the records with that status in input order, and likewise for test names,
   * which are all truthy.
   */
  lemma {:induction false} GroupedLists(ms: seq<Value>, k: Value)
    requires Grouped(ms).Ok?
    ensures GroupItems(Grouped(ms).value.byStatus, k) == WithStatus(ms, k)
    ensures GroupItems(Grouped(ms).value.byTest, k) == WithTestName(ms, k)
    ensures TotalItems(Grouped(ms).value.byStatus) == |DictsAmong(ms)|
    ensures forall j :: 0 <= j < |Grouped(ms).value.byTest| ==> Truthy(Grouped(ms).value.byTest[j].key)
  {
    if ms != [] {
      var init := ms[..|ms| - 1];
      var meas := ms[|ms| - 1];
      GroupedLists(init, k);
      var b := Grouped(init).value;
      if meas.Object? {
        var t := TestNameOf(meas).value;
        if Truthy(t) {
          AddToGroupItems(b.byTest, t, meas, k);
          AddToGroupKeys(b.byTest, t, meas, Truthy);
        }
        AddToGroupItems(b.byStatus, StatusKey(meas.members), meas, k);
        AddToGroupTotal(b.byStatus, StatusKey(meas.members), meas);
      }
    }
  }

  lemma {:induction false} GroupedErr(ms: seq<Value>, k: nat)
    requires k <= |ms| && Grouped(ms[..k]).Err?
    ensures Grouped(ms) == Grouped(ms[..k])
    decreases |ms| - k
  {
    if k < |ms| {
      assert ms[..k + 1][..k] == ms[..k];
      GroupedErr(ms, k + 1);
    } else {
      assert ms[..k] == ms;
    }
  }

  /** `MeasurementHierarchyExplorer.build_measurement_hierarchy` */
  method BuildMeasurementHierarchy(ms: seq<Value>) returns (r: Result<Hierarchy>)
    ensures r == MeasurementHierarchy(ms)
  {
    var total := |ms|;
    var byTest: seq<Group> := [];
    var byStatus: seq<Group> := [];
    var i := 0;
    while i < |ms|
      invariant 0 <= i <= |ms|
      invariant Grouped(ms[..i]) == Ok(Buckets(byTest, byStatus))
    {
      assert ms[..i + 1][..i] == ms[..i];
      var meas := ms[i];
      if meas.Object? {
        var testName := TestNameOf(meas);
        if testName.Err? {
          GroupedErr(ms, i + 1);
          return Err(Wrapped("Failed to build hierarchy: ", testName.error));
        }
        if Truthy(testName.value) {
          var added := AddToGroup(byTest, testName.value, meas);
          if added.Err? {
            GroupedErr(ms, i + 1);
            return Err(Wrapped("Failed to build hierarchy: ", added.error));
          }
          byTest := added.value;
        }
        var added := AddToGroup(byStatus, StatusKey(meas.members), meas);
        if added.Err? {
          GroupedErr(ms, i + 1);
          return Err(Wrapped("Failed to build hierarchy: ", added.error));
        }
        byStatus := added.value;
      }
      i := i + 1;
    }
    assert ms[..|ms|] == ms;
    r := Ok(Hierarchy(byTest, [], byStatus, total));
  }

  // ---------------------------------------------------------------- build_measurement_index

  /** The four dicts the loop fills; `byId` is keyed by `str(Id)`. */
  datatype Catalogue = Catalogue(byId: seq<Member>, byName: seq<Group>, byTest: seq<Group>, byStatus: seq<Group>)

  /** One pass of the loop body: id, then name, then test name, then status. */
  function IndexStep(c: Catalogue, meas: Value): Result<Catalogue> {
    if !meas.Object? then Ok(c)
    else
      var id := GetOrNull(meas.members, "Id");
      var byId := if Truthy(id) then DictSet(c.byId, ToStr(id), meas) else c.byId;
      var name := GetOrNull(meas.members, "Name");
      match (if Truthy(name) then AddToGroup(c.byName, name, meas) else Ok(c.byName))
      case Err(e) => Err(e)
      case Ok(byName) =>
        match GroupStep(Buckets(c.byTest, c.byStatus), meas)
        case Err(e) => Err(e)
        case Ok(b) => Ok(Catalogue(byId, byName, b.byTest, b.byStatus))
  }

  function Catalogued(ms: seq<Value>): Result<Catalogue> {
    if ms == [] then Ok(Catalogue([], [], [], []))
    else
      match Catalogued(ms[..|ms| - 1])
      case Err(e) => Err(e)
      case Ok(c) => IndexStep(c, ms[|ms| - 1])
  }

  datatype Index = Index(byId: seq<Member>, byName: seq<Group>, byTest: seq<Group>, byStatus: seq<Group>, totalMeasurements: int)

  /** What `build_measurement_index` returns, or the error it raises. */
  function MeasurementIndex(ms: seq<Value>): (r: Result<Index>)
    ensures r.Ok? ==> r.value.totalMeasurements == |ms|
  {
    match Catalogued(ms)
    case Err(e) => Err(Wrapped("Failed to build measurement index: ", e))
    case Ok(c) => Ok(Index(c.byId, c.byName, c.byTest, c.byStatus, |ms|))
  }

  /** The last dict record whose truthy `Id` prints as `k`. */
  function LastWithId(ms: seq<Value>, k: string): Option<Value> {
    if ms == [] then None
    else
      var last := ms[|ms| - 1];
      if last.Object? && Truthy(GetOrNull(last.members, "Id")) && ToStr(GetOrNull(last.members, "Id")) == k
      then Some(last)
      else LastWithId(ms[..|ms| - 1], k)
  }

  /** The dict records with a truthy `Name` `==` `k`, in input order. */
  function WithName(ms: seq<Value>, k: Value): seq<Value> {
    if ms == [] then []
    else
      var last := ms[|ms| - 1];
      var name := if last.Object? then GetOrNull(last.members, "Name") else Null;
      WithName(ms[..|ms| - 1], k) + (if Truthy(name) && KeyEq(name, k) then [last] else [])
  }

  /**
   * `by_id[k]` is the last record with that id (a later one overwrites an
   * earlier one), and `by_name[k]` lists the records named `k` in order.
   */
  lemma {:induction false} IndexLookups(ms: seq<Value>, k: string, name: Value)
    requires Catalogued(ms).Ok?
    ensures Get(Catalogued(ms).value.byId, k) == LastWithId(ms, k)
    ensures GroupItems(Catalogued(ms).value.byName, name) == WithName(ms, name)
  {
    if ms != [] {
      var init := ms[..|ms| - 1];
      var meas := ms[|ms| - 1];
      IndexLookups(init, k, name);
      var c := Catalogued(init).value;
      if meas.Object? {
        var id := GetOrNull(meas.members, "Id");
        if Truthy(id) {
          DictSetGet(c.byId, ToStr(id), meas, k);
        }
        var n := GetOrNull(meas.members, "Name");
        if Truthy(n) {
          AddToGroupItems(c.byName, n, meas, name);
        }
      }
    }
  }

  /** The index's test and status lists are those of the hierarchy. */
  lemma {:induction false} IndexAgreesWithHierarchy(ms: seq<Value>)
    requires Catalogued(ms).Ok?
    ensures Grouped(ms) == Ok(Buckets(Catalogued(ms).value.byTest, Catalogued(ms).value.byStatus))
  {
    if ms != [] {
      IndexAgreesWithHierarchy(ms[..|ms| - 1]);
    }
  }

  lemma {:induction false} CataloguedErr(ms: seq<Value>, k: nat)
    requires k <= |ms| && Catalogued(ms[..k]).Err?
    ensures Catalogued(ms) == Catalogued(ms[..k])
    decreases |ms| - k
  {
    if k < |ms| {
      assert ms[..k + 1][..k] == ms[..k];
      CataloguedErr(ms, k + 1);
    } else {
      assert ms[..k] == ms;
    }
  }

  /** `MeasurementHierarchyExplorer.build_measurement_index` */
  method BuildMeasurementIndex(ms: seq<Value>) returns (r: Result<Index>)
    ensures r == MeasurementIndex(ms)
  {
    var total := |ms|;
    var byId: seq<Member> := [];
    var byName: seq<Group> := [];
    var byTest: seq<Group> := [];
    var byStatus: seq<Group> := [];
    var i := 0;
    while i < |ms|
      invariant 0 <= i <= |ms|
      invariant Catalogued(ms[..i]) == Ok(Catalogue(byId, byName, byTest, byStatus))
    {
      assert ms[..i + 1][..i] == ms[..i];
      var meas := ms[i];
      if meas.Object? {
        var id := GetOrNull(meas.members, "Id");
        if Truthy(id) {
          byId := DictSet(byId, ToStr(id), meas);
        }
        var name := GetOrNull(meas.members, "Name");
        if Truthy(name) {
          var added := AddToGroup(byName, name, meas);
          if added.Err? {
            CataloguedErr(ms, i + 1);
            return Err(Wrapped("Failed to build measurement index: ", added.error));
          }
          byName := added.value;
        }
        var grouped := GroupStep(Buckets(byTest, byStatus), meas);
        if grouped.Err? {
          CataloguedErr(ms, i + 1);
          return Err(Wrapped("Failed to build measurement index: ", grouped.error));
        }
        byTest, byStatus := grouped.value.byTest, grouped.value.byStatus;
      }
      i := i + 1;
    }
    assert ms[..|ms|] == ms;
    r := Ok(Index(byId, byName, byTest, byStatus, total));
  }
}
