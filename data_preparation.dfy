/**
 * `data_preparation.py`: the metadata for plotting measurements, read from
 * tables of rows (a pandas `DataFrame` becomes a sequence of row records),
 * and the preparation of one plot item per submatrix.
 */
module DataPreparation {
  import opened Text
  import opened Json
  import Sorting

  // ---------------------------------------------------------------- dicts built from rows

  /** `d.get(k, default)` */
  function GetOr<K, V>(d: map<K, V>, k: K, default: V): V {
    if k in d then d[k] else default
  }

  /** The index of the last row with key `k`, or -1 when no row has it. */
  ghost function LastIndex<R, K>(rows: seq<R>, key: R -> K, k: K): (r: int)
    ensures -1 <= r < |rows|
    ensures r >= 0 ==> key(rows[r]) == k
    ensures forall j :: r < j < |rows| ==> key(rows[j]) != k
  {
    if rows == [] then -1
    else if key(rows[|rows| - 1]) == k then |rows| - 1
    else LastIndex(rows[..|rows| - 1], key, k)
  }

  /**
   * `d` is the dict `{key(r): val(r) for r in rows}`: it has the keys of
   * the rows, and as in Python the last row with a key sets its value.
   */
  ghost predicate LastWins<R, K(!new), V>(rows: seq<R>, key: R -> K, val: R -> V, d: map<K, V>) {
    && (forall k :: k in d <==> LastIndex(rows, key, k) >= 0)
    && (forall k :: k in d ==> d[k] == val(rows[LastIndex(rows, key, k)]))
  }

  lemma {:induction false} LastWinsAppend<R, K(!new), V>(rows: seq<R>, x: R, key: R -> K, val: R -> V, d: map<K, V>)
    requires LastWins(rows, key, val, d)
    ensures LastWins(rows + [x], key, val, d[key(x) := val(x)])
  {
    assert (rows + [x])[..|rows|] == rows;
  }

  /** Under `LastWins`, a row that no later row shares its key with sets that key's value. */
  lemma {:induction false} LastWinsAt<R, K(!new), V>(rows: seq<R>, key: R -> K, val: R -> V, d: map<K, V>, i: nat)
    requires LastWins(rows, key, val, d)
    requires i < |rows| && forall j :: i < j < |rows| ==> key(rows[j]) != key(rows[i])
    ensures key(rows[i]) in d && d[key(rows[i])] == val(rows[i])
  {
    assert LastIndex(rows, key, key(rows[i])) == i;
  }

  /** `dict(zip(keys, values))` and `{k: v for row in rows}` over a table's rows. */
  function DictFromRows<R, K(!new), V>(rows: seq<R>, key: R -> K, val: R -> V): (d: map<K, V>)
    ensures LastWins(rows, key, val, d)
  {
    if rows == [] then map[]
    else
      var init := rows[..|rows| - 1];
      var last := rows[|rows| - 1];
      LastWinsAppend(init, last, key, val, DictFromRows(init, key, val));
      assert init + [last] == rows;
      DictFromRows(init, key, val)[key(last) := val(last)]
  }

  // ---------------------------------------------------------------- tables

  /** The columns every local-column and signal row has. */
  datatype Column = Column(id: int, name: string, independent: int)

  /** A row of the local-columns table, with the unit of its measurement quantity. */
  datatype LocalColumn = LocalColumn(column: Column, unit: string)

  /**
   * The local-columns table; `hasUnits` says whether it has the column
   * `measurement_quantity.unit:OUTER.name`.
   */
  datatype LocalColumns = LocalColumns(rows: seq<LocalColumn>, hasUnits: bool)

  datatype SubmatrixRow = SubmatrixRow(id: int, measurement: int)

  /** A row of the measurements table: `MeaResult.Id`, `MeaResult.Name`, `Test.Name`, `Project.Name`. */
  datatype MeasurementRow = MeasurementRow(id: int, name: string, testName: string, projectName: string)

  /** A row of a submatrix's signals table: a local column and its values. */
  datatype Signal = Signal(column: Column, values: seq<Value>)

  function IdOf(row: LocalColumn): int { row.column.id }
  function UnitOf(row: LocalColumn): string { row.unit }
  function NameOf(row: LocalColumn): string { row.column.name }
  function SubmatrixIdOf(row: SubmatrixRow): int { row.id }
  function SignalName(s: Signal): string { s.column.name }
  function SignalValues(s: Signal): seq<Value> { s.values }
  function SignalColumn(s: Signal): Column { s.column }

  // ---------------------------------------------------------------- MeasurementMetadataExtractor

  /**
   * `extract_unit_lookup`: each column id to its unit. Without the unit
   * column, `zip` pairs the ids with the one character of the default
   * `"-"`, so only the first id is mapped.
   */
  function ExtractUnitLookup(t: LocalColumns): (r: map<int, string>)
    ensures t.rows == [] ==> r == map[]
    ensures t.hasUnits ==> LastWins(t.rows, IdOf, UnitOf, r)
    ensures !t.hasUnits && t.rows != [] ==> r.Keys == {t.rows[0].column.id} && r[t.rows[0].column.id] == "-"
  {
    if t.rows == [] then map[]
    else if t.hasUnits then DictFromRows(t.rows, IdOf, UnitOf)
    else map[t.rows[0].column.id := "-"]
  }

  /** `f"{name} [{unit}]"` */
  function Label(name: string, unit: string): string {
    name + " [" + unit + "]"
  }

  /** The label of a row: its name, and its unit from the lookup or `-`. */
  function LabelFor(unitLookup: map<int, string>): LocalColumn -> string {
    (row: LocalColumn) => Label(row.column.name, GetOr(unitLookup, row.column.id, "-"))
  }

  /**
   * `build_label_dict`: each column name to its label; where a name
   * repeats, the last row with it decides.
   */
  function BuildLabelDict(rows: seq<LocalColumn>, unitLookup: map<int, string>): (r: map<string, string>)
    ensures rows == [] ==> r == map[]
    ensures LastWins(rows, NameOf, LabelFor(unitLookup), r)
  {
    if rows == [] then map[] else DictFromRows(rows, NameOf, LabelFor(unitLookup))
  }

  /** A label names its column with its unit in brackets, `-` when the lookup has none. */
  lemma {:induction false} LabelOfColumn(rows: seq<LocalColumn>, unitLookup: map<int, string>, i: nat)
    requires i < |rows| && forall j :: i < j < |rows| ==> rows[j].column.name != rows[i].column.name
    ensures var r := BuildLabelDict(rows, unitLookup);
            && rows[i].column.name in r
            && r[rows[i].column.name] == rows[i].column.name + " [" +
                 (if rows[i].column.id in unitLookup then unitLookup[rows[i].column.id] else "-") + "]"
  {
    var r := BuildLabelDict(rows, unitLookup);
    assert forall j :: i < j < |rows| ==> NameOf(rows[j]) != NameOf(rows[i]);
    assert r[NameOf(rows[i])] == LabelFor(unitLookup)(rows[i]);
  }

  /** Row `i` is the first measurement row with `MeaResult.Id` equal to `id`. */
  predicate FirstMatchAt(measurements: seq<MeasurementRow>, id: int, i: int) {
    && 0 <= i < |measurements|
    && measurements[i].id == id
    && forall j :: 0 <= j < i ==> measurements[j].id != id
  }

  /** The first measurement row with the given `MeaResult.Id`. */
  function FirstMeasurement(measurements: seq<MeasurementRow>, id: int): (r: Option<nat>)
    ensures r.None? <==> forall j :: 0 <= j < |measurements| ==> measurements[j].id != id
    ensures r.Some? ==> FirstMatchAt(measurements, id, r.value)
    ensures forall i :: FirstMatchAt(measurements, id, i) <==> r.Some? && r.value == i
  {
    if measurements == [] then None
    else if measurements[0].id == id then Some(0)
    else
      var rest := FirstMeasurement(measurements[1..], id);
      assert forall k :: FirstMatchAt(measurements, id, k) <==> k > 0 && FirstMatchAt(measurements[1..], id, k - 1);
      match rest
      case Some(i) => Some(i + 1)
      case None => None
  }

  /**
   * The title of a submatrix: "Project - Campaign - Profile" from the first
   * measurement row it refers to, or "Submatrix <id>" when there is none.
   */
  function TitleOf(measurements: seq<MeasurementRow>, row: SubmatrixRow): (r: string)
    ensures (forall j :: 0 <= j < |measurements| ==> measurements[j].id != row.measurement) ==>
              r == "Submatrix " + IntToString(row.id)
    ensures forall i :: FirstMatchAt(measurements, row.measurement, i) ==>
              r == measurements[i].projectName + " - " + measurements[i].testName + " - " + measurements[i].name
  {
    match FirstMeasurement(measurements, row.measurement)
    case Some(i) =>
      var m := measurements[i];
      m.projectName + " - " + m.testName + " - " + m.name
    case None => "Submatrix " + IntToString(row.id)
  }

  function TitleFor(measurements: seq<MeasurementRow>): SubmatrixRow -> string {
    (row: SubmatrixRow) => TitleOf(measurements, row)
  }

  /**
   * `build_submatrix_title_lookup`: nothing when either table is empty;
   * otherwise every submatrix id has the title of its (last) row.
   */
  method BuildSubmatrixTitleLookup(submatrices: seq<SubmatrixRow>, measurements: seq<MeasurementRow>)
    returns (titles: map<int, string>)
    ensures submatrices == [] || measurements == [] ==> titles == map[]
    ensures submatrices != [] && measurements != [] ==>
              LastWins(submatrices, SubmatrixIdOf, TitleFor(measurements), titles)
  {
    if submatrices == [] || measurements == [] {
      return map[];
    }
    titles := map[];
    for i := 0 to |submatrices|
      invariant LastWins(submatrices[..i], SubmatrixIdOf, TitleFor(measurements), titles)
    {
      var row := submatrices[i];
      var title: string;
      var found := FirstMeasurement(measurements, row.measurement);
      if found.Some? {
        var m := measurements[found.value];
        title := m.projectName + " - " + m.testName + " - " + m.name;
      } else {
        title := "Submatrix " + IntToString(row.id);
      }
      LastWinsAppend(submatrices[..i], row, SubmatrixIdOf, TitleFor(measurements), titles);
      assert submatrices[..i] + [row] == submatrices[..i + 1];
      titles := titles[row.id := title];
    }
    assert submatrices[..|submatrices|] == submatrices;
  }

  /** Row `i` is the first whose `independent` column is 1. */
  predicate FirstIndependentAt(columns: seq<Column>, i: int) {
    && 0 <= i < |columns|
    && columns[i].independent == 1
    && forall j :: 0 <= j < i ==> columns[j].independent != 1
  }

  /** The first row whose `independent` column is 1. */
  function FirstIndependent(columns: seq<Column>): (r: Option<nat>)
    ensures r.None? <==> forall j :: 0 <= j < |columns| ==> columns[j].independent != 1
    ensures r.Some? ==> FirstIndependentAt(columns, r.value)
    ensures forall i :: FirstIndependentAt(columns, i) <==> r.Some? && r.value == i
  {
    if columns == [] then None
    else if columns[0].independent == 1 then Some(0)
    else
      var rest := FirstIndependent(columns[1..]);
      assert forall k :: FirstIndependentAt(columns, k) <==> k > 0 && FirstIndependentAt(columns[1..], k - 1);
      match rest
      case Some(i) => Some(i + 1)
      case None => None
  }

  datatype IndependentInfo = IndependentInfo(name: string, unit: string)

  /**
   * `get_independent_column_info`: the name and unit of the first
   * independent column, or ("Index", "-") when there is none.
   */
  function GetIndependentColumnInfo(columns: seq<Column>, unitLookup: map<int, string>): (r: IndependentInfo)
    ensures (forall j :: 0 <= j < |columns| ==> columns[j].independent != 1) ==> r == IndependentInfo("Index", "-")
    ensures forall i :: FirstIndependentAt(columns, i) ==>
              r == IndependentInfo(columns[i].name, GetOr(unitLookup, columns[i].id, "-"))
  {
    if columns == [] then IndependentInfo("Index", "-")
    else match FirstIndependent(columns)
      case None => IndependentInfo("Index", "-")
      case Some(i) => IndependentInfo(columns[i].name, GetOr(unitLookup, columns[i].id, "-"))
  }

  // ---------------------------------------------------------------- MeasurementDataPreparator

  /** The columns of the prepared table and the column used as its index, if any. */
  datatype Frame = Frame(data: map<string, seq<Value>>, index: Option<string>)

  datatype Prepared = PrepFailed(message: string) | PrepOk(frame: Frame)

  /** `[col for col in names if col not in present]` */
  function Missing(names: seq<string>, present: set<string>): (r: seq<string>)
    ensures |r| <= |names|
    ensures forall n :: n in r <==> n in names && n !in present
  {
    if names == [] then []
    else (if names[0] in present then [] else [names[0]]) + Missing(names[1..], present)
  }

  function Columns(signals: seq<Signal>): (r: seq<Column>)
    ensures |r| == |signals|
    ensures forall i :: 0 <= i < |signals| ==> r[i] == signals[i].column
  {
    if signals == [] then [] else [signals[0].column] + Columns(signals[1..])
  }

  /**
   * `prepare_submatrix_dataframe`: the signals' values by name, indexed by
   * the first independent signal, or the reason it cannot be prepared.
   */
  function PrepareSubmatrixDataframe(signals: seq<Signal>, names: seq<string>): Prepared {
    if signals == [] then PrepFailed("No signals provided")
    else
      var data := DictFromRows(signals, SignalName, SignalValues);
      var missing := Missing(names, data.Keys);
      if missing != [] then PrepFailed("Missing required columns: " + ReprStrings(missing))
      else
        var independent := FirstIndependent(Columns(signals));
        var index := if independent.Some? && signals[independent.value].column.name in data
                     then Some(signals[independent.value].column.name) else None;
        PrepOk(Frame(data, index))
  }

  /**
   * Preparation fails exactly for no signals or a requested name that no
   * signal has, and the message lists the missing names in order; a
   * prepared table has a column for every signal and every requested name.
   */
  lemma {:induction false} PrepareOutcome(signals: seq<Signal>, names: seq<string>)
    ensures var r := PrepareSubmatrixDataframe(signals, names);
            var present := set i | 0 <= i < |signals| :: signals[i].column.name;
            && (signals == [] ==> r == PrepFailed("No signals provided"))
            && (r.PrepFailed? <==> signals == [] || exists n :: n in names && n !in present)
            && (signals != [] && r.PrepFailed? ==>
                  r.message == "Missing required columns: " + ReprStrings(Missing(names, present)))
            && (r.PrepOk? ==> r.frame.data.Keys == present && forall n :: n in names ==> n in r.frame.data)
  {
    var present := set i | 0 <= i < |signals| :: signals[i].column.name;
    if signals != [] {
      var data := DictFromRows(signals, SignalName, SignalValues);
      assert data.Keys == present by {
        forall k ensures k in data.Keys <==> k in present {
          if k in data.Keys {
            var i :| 0 <= i < |signals| && SignalName(signals[i]) == k;
          }
          if k in present {
            var i :| 0 <= i < |signals| && signals[i].column.name == k;
            assert SignalName(signals[i]) == k;
          }
        }
      }
      var missing := Missing(names, present);
      if missing != [] {
        assert missing[0] in names && missing[0] !in present;
      }
    }
  }

  /** The prepared table is indexed by the first independent signal, when there is one. */
  lemma {:induction false} PrepareIndex(signals: seq<Signal>, names: seq<string>)
    requires PrepareSubmatrixDataframe(signals, names).PrepOk?
    ensures var f := PrepareSubmatrixDataframe(signals, names).frame;
            && ((forall j :: 0 <= j < |signals| ==> signals[j].column.independent != 1) ==> f.index == None)
            && (forall i :: FirstIndependentAt(Columns(signals), i) ==> f.index == Some(signals[i].column.name))
  {
    var first := FirstIndependent(Columns(signals));
    if first.Some? {
      assert SignalName(signals[first.value]) in DictFromRows(signals, SignalName, SignalValues);
    }
  }

  /** The signals of one submatrix, one entry of `submatrix_signals_by_id`. */
  datatype SubmatrixSignals = SubmatrixSignals(submatrixId: int, signals: seq<Signal>)

  /** One item of the result: its title, table, labels and independent column. */
  datatype DataItem = DataItem(title: string, data: Frame, labels: map<string, string>, independent: IndependentInfo)

  /** `f"{submatrix title}\n(Color: {name} [{unit}])"` */
  function ItemTitle(titles: map<int, string>, submatrixId: int, info: IndependentInfo): string {
    GetOr(titles, submatrixId, "Unknown") + "\n(Color: " + info.name + " [" + info.unit + "])"
  }

  /** The item for one submatrix, or nothing when its table cannot be prepared. */
  function ItemOf(names: seq<string>, unitLookup: map<int, string>, titles: map<int, string>,
                  labels: map<string, string>, entry: SubmatrixSignals): Option<DataItem>
  {
    match PrepareSubmatrixDataframe(entry.signals, names)
    case PrepFailed(_) => None
    case PrepOk(frame) =>
      var info := GetIndependentColumnInfo(Columns(entry.signals), unitLookup);
      Some(DataItem(ItemTitle(titles, entry.submatrixId, info), frame, labels, info))
  }

  function ItemFor(names: seq<string>, unitLookup: map<int, string>, titles: map<int, string>,
                   labels: map<string, string>): SubmatrixSignals -> Option<DataItem>
  {
    (entry: SubmatrixSignals) => ItemOf(names, unitLookup, titles, labels, entry)
  }

  /** `[f(x) for x in s if f(x) is not None]`, in order. */
  function KeepEach<A, B>(s: seq<A>, f: A -> Option<B>): (r: seq<B>)
    ensures |r| <= |s|
    ensures forall j :: 0 <= j < |r| ==> exists i :: 0 <= i < |s| && f(s[i]) == Some(r[j])
    ensures forall i :: 0 <= i < |s| && f(s[i]).Some? ==> f(s[i]).value in r
  {
    if s == [] then []
    else
      var rest := KeepEach(s[1..], f);
      assert forall i :: 1 <= i < |s| ==> s[i] == s[1..][i - 1];
      if f(s[0]).Some? then [f(s[0]).value] + rest else rest
  }

  /** The loop that appends the item of each entry, skipping those without one. */
  method CollectEach<A, B>(s: seq<A>, f: A -> Option<B>) returns (r: seq<B>)
    ensures r == KeepEach(s, f)
  {
    r := [];
    for i := 0 to |s|
      invariant r == KeepEach(s[..i], f)
    {
      KeepEachAppend(s[..i], s[i], f);
      assert s[..i] + [s[i]] == s[..i + 1];
      var item := f(s[i]);
      if item.None? {
        continue;
      }
      r := r + [item.value];
    }
    assert s[..|s|] == s;
  }

  lemma {:induction false} KeepEachAppend<A, B>(s: seq<A>, x: A, f: A -> Option<B>)
    ensures KeepEach(s + [x], f) == KeepEach(s, f) + (if f(x).Some? then [f(x).value] else [])
  {
    if s == [] {
      assert [x] + [] == [x];
    } else {
      KeepEachAppend(s[1..], x, f);
      assert (s + [x])[1..] == s[1..] + [x];
    }
  }

  /** The sort key of `prepare_measurement_data_items`: `str(x["title"])`. */
  function TitleKey(item: DataItem): string {
    item.title
  }

  // ---------------------------------------------------------------- prepare_measurement_data_items

  /** The items of `prepare_measurement_data_items` before the sort. */
  function Items(entries: seq<SubmatrixSignals>, names: seq<string>, unitLookup: map<int, string>,
                 titles: map<int, string>, labels: map<string, string>): seq<DataItem>
  {
    KeepEach(entries, ItemFor(names, unitLookup, titles, labels))
  }

  /** `titles` is what `build_submatrix_title_lookup` gives for these tables. */
  ghost predicate TitleLookup(submatrices: seq<SubmatrixRow>, measurements: seq<MeasurementRow>,
                              titles: map<int, string>)
  {
    && (submatrices == [] || measurements == [] ==> titles == map[])
    && (submatrices != [] && measurements != [] ==> LastWins(submatrices, SubmatrixIdOf, TitleFor(measurements), titles))
  }

  /**
   * `prepare_measurement_data_items`: the unit lookup is computed from the
   * local columns unless one is given; each submatrix whose table can be
   * prepared gives one item; the items end sorted by title.
   */
  method PrepareMeasurementDataItems(entries: seq<SubmatrixSignals>, submatrices: seq<SubmatrixRow>,
                                     measurements: seq<MeasurementRow>, localColumns: LocalColumns,
                                     names: seq<string>, unitLookup: Option<map<int, string>>)
    returns (items: seq<DataItem>)
    ensures var units := if unitLookup.None? then ExtractUnitLookup(localColumns) else unitLookup.value;
            exists titles :: TitleLookup(submatrices, measurements, titles) &&
              items == Sorting.SortBy(Items(entries, names, units, titles, BuildLabelDict(localColumns.rows, units)), TitleKey)
  {
    var units := if unitLookup.None? then ExtractUnitLookup(localColumns) else unitLookup.value;
    var titles := BuildSubmatrixTitleLookup(submatrices, measurements);
    var labels := BuildLabelDict(localColumns.rows, units);
    items := CollectEach(entries, ItemFor(names, units, titles, labels));
    assert items == Items(entries, names, units, titles, labels);
    items := Sorting.SortBy(items, TitleKey);
    assert TitleLookup(submatrices, measurements, titles);
  }

  /**
   * `item` is the item of `entry`: its table could be prepared, and the
   * item is titled after the submatrix and its independent column.
   */
  predicate ItemFromEntry(names: seq<string>, unitLookup: map<int, string>, titles: map<int, string>,
                          labels: map<string, string>, entry: SubmatrixSignals, item: DataItem)
  {
    && PrepareSubmatrixDataframe(entry.signals, names).PrepOk?
    && item.title == ItemTitle(titles, entry.submatrixId, GetIndependentColumnInfo(Columns(entry.signals), unitLookup))
    && item.independent == GetIndependentColumnInfo(Columns(entry.signals), unitLookup)
    && item.data == PrepareSubmatrixDataframe(entry.signals, names).frame
    && item.labels == labels
  }

  /** The item of an entry, when there is one, is the item `ItemFromEntry` describes. */
  lemma {:induction false} ItemOfEntry(names: seq<string>, unitLookup: map<int, string>, titles: map<int, string>,
                                       labels: map<string, string>, entry: SubmatrixSignals)
    ensures var item := ItemOf(names, unitLookup, titles, labels, entry);
            && (item.Some? <==> PrepareSubmatrixDataframe(entry.signals, names).PrepOk?)
            && (item.Some? ==> ItemFromEntry(names, unitLookup, titles, labels, entry, item.value))
  {
  }

  /**
   * The items are no more than there are submatrices, sorted by title,
   * and items of one title keep the order of their submatrices.
   */
  lemma {:induction false} ItemsSorted(entries: seq<SubmatrixSignals>, names: seq<string>, unitLookup: map<int, string>,
                    titles: map<int, string>, labels: map<string, string>, title: string)
    ensures var kept := Items(entries, names, unitLookup, titles, labels);
            var r := Sorting.SortBy(kept, TitleKey);
            && |r| <= |entries|
            && Sorting.SortedBy(r, TitleKey)
            && Sorting.WithKey(r, TitleKey, title) == Sorting.WithKey(kept, TitleKey, title)
  {
    var kept := Items(entries, names, unitLookup, titles, labels);
    var r := Sorting.SortBy(kept, TitleKey);
    Sorting.SortBySorted(kept, TitleKey);
    Sorting.SortByStable(kept, TitleKey, title);
    assert |r| == |kept| by {
      assert |multiset(r)| == |multiset(kept)|;
    }
  }

  /**
   * Every item comes from a submatrix whose table could be prepared, is
   * titled after that submatrix and its independent column, and carries
   * the label dict.
   */
  lemma {:induction false} ItemsFromEntries(entries: seq<SubmatrixSignals>, names: seq<string>, unitLookup: map<int, string>,
                         titles: map<int, string>, labels: map<string, string>)
    ensures var r := Sorting.SortBy(Items(entries, names, unitLookup, titles, labels), TitleKey);
            forall j :: 0 <= j < |r| ==>
              exists i :: 0 <= i < |entries| && ItemFromEntry(names, unitLookup, titles, labels, entries[i], r[j])
  {
    var f := ItemFor(names, unitLookup, titles, labels);
    var kept := Items(entries, names, unitLookup, titles, labels);
    var r := Sorting.SortBy(kept, TitleKey);
    forall j | 0 <= j < |r|
      ensures exists i :: 0 <= i < |entries| && ItemFromEntry(names, unitLookup, titles, labels, entries[i], r[j])
    {
      assert r[j] in multiset(kept);
      var k :| 0 <= k < |kept| && kept[k] == r[j];
      var i :| 0 <= i < |entries| && f(entries[i]) == Some(kept[k]);
      ItemOfEntry(names, unitLookup, titles, labels, entries[i]);
    }
  }

  /**
   * Every submatrix whose table can be prepared has its item in the
   * result (`ItemOfEntry` says what that item is).
   */
  lemma {:induction false} ItemsComplete(entries: seq<SubmatrixSignals>, names: seq<string>, unitLookup: map<int, string>,
                                         titles: map<int, string>, labels: map<string, string>)
    ensures var r := Sorting.SortBy(Items(entries, names, unitLookup, titles, labels), TitleKey);
            forall i :: 0 <= i < |entries| && PrepareSubmatrixDataframe(entries[i].signals, names).PrepOk? ==>
              ItemOf(names, unitLookup, titles, labels, entries[i]).Some? &&
              ItemOf(names, unitLookup, titles, labels, entries[i]).value in r
  {
    var f := ItemFor(names, unitLookup, titles, labels);
    var kept := Items(entries, names, unitLookup, titles, labels);
    var r := Sorting.SortBy(kept, TitleKey);
    forall i | 0 <= i < |entries| && PrepareSubmatrixDataframe(entries[i].signals, names).PrepOk?
      ensures ItemOf(names, unitLookup, titles, labels, entries[i]).Some?
      ensures ItemOf(names, unitLookup, titles, labels, entries[i]).value in r
    {
      var x := f(entries[i]).value;
      assert x in kept;
      assert x in multiset(r);
    }
  }
}
