/**
 * `EntityDescriptions`: the fixed table of ASAM ODS base elements and
 * their descriptions, looked up by base name exactly and then ignoring
 * letter case, with the openMDM template and catalog special cases.
 */
module EntityDescriptions {
  import opened Text
  import opened Json
  import Sorting

  /**
   * The `EntityDescriptions.DESCRIPTIONS` dict is given by its keys, in
   * declaration order, and by the value stored under the key at each
   * position (`DescriptionText`).
   */
  const BaseNames: seq<string> := [
    "AoEnvironment",
    "AoNameMap",
    "AoAttributeMap",
    "AoFile",
    "AoMimetypeMap",
    "AoQuantity",
    "AoUnit",
    "AoPhysicalDimension",
    "AoQuantityGroup",
    "AoUnitGroup",
    "AoMeasurement",
    "AoMeasurementQuantity",
    "AoSubmatrix",
    "AoLocalColumn",
    "AoExternalComponent",
    "AoTest",
    "AoSubTest",
    "AoUnitUnderTest",
    "AoUnitUnderTestPart",
    "AoTestSequence",
    "AoTestSequencePart",
    "AoTestEquipment",
    "AoTestEquipmentPart",
    "AoTestDevice",
    "AoUser",
    "AoUserGroup",
    "AoParameter",
    "AoParameterSet",
    "AoLog",
    "AoAny"
  ]

  /** `DESCRIPTIONS[BaseNames[i]]` */
  function DescriptionText(i: nat): string
    requires i < |BaseNames|
  {
    if i == 0 then "The main entry point to the ASAM ODS storage, used to describe the environment and store global information like the base model version and timezone data. Only one instance is allowed."
    else if i == 1 then "Used to store lists of alias names for Application Elements, primarily supporting multi-language environments."
    else if i == 2 then "Used to store lists of alias names for application attributes and relations."
    else if i == 3 then "Represents an external file in the ODS server namespace that is under the control of the ODS server."
    else if i == 4 then "Used to manage multiple MIME types that can be associated with an instance."
    else if i == 5 then "Describes a physical quantity (e.g., force, temperature). It serves as a base for measurement quantities and relates to a physical dimension."
    else if i == 6 then "Represents information about a specific physical unit (e.g., Newton, Kelvin)."
    else if i == 7 then "Specifies the physical dimension of a unit based on characteristics in the SI system (e.g., length, time, mass)."
    else if i == 8 then "Allows for the logical grouping of quantities based on application-specific criteria."
    else if i == 9 then "Allows for the logical grouping of units."
    else if i == 10 then "The primary container for a complete measurement or test case. Represents a single data acquisition session that contains all measurement data, metadata, and associated submatrices. Links to the test hierarchy and manages timeseries data through Local Columns."
    else if i == 11 then "Represents a specific measured or set physical quantity used within a measurement case."
    else if i == 12 then "A container used to manage and group related Local Columns that hold timeseries data corresponding to the same measurement points."
    else if i == 13 then "Stores the actual mass data (values and flags) for exactly one measurement quantity (column)."
    else if i == 14 then "Describes the location and structure of mass data stored in an external binary file, as referenced by a Local Column to store values."
    else if i == 15 then "The root entity of the test hierarchy representing test campaigns or programs. Organizes test activities creating a multi-level tree structure from AoTest through multiple AoSubTest levels down to individual AoMeasurement instances."
    else if i == 16 then "An intermediate level in the test hierarchy that enables the organization of complex test scenarios. Allows for grouping related measurements under logical sub-test categories, creating a multi-level tree structure from AoTest through multiple AoSubTest levels down to individual AoMeasurement instances. Supports hierarchical test planning and result organization."
    else if i == 17 then "Represents the complete object undergoing testing (UUT)."
    else if i == 18 then "Represents individual parts or components of the Unit Under Test."
    else if i == 19 then "Defines the overall test procedure or plan executed."
    else if i == 20 then "Defines parts of a defined test sequence."
    else if i == 21 then "Represents the primary test equipment used during a test."
    else if i == 22 then "Represents parts or components of the test equipment."
    else if i == 23 then "A specialized base element primarily intended for representing specific test devices."
    else if i == 24 then "Used for managing and storing user identification data."
    else if i == 25 then "Used for storing definitions of user groups, typically for access control lists (ACLs)."
    else if i == 26 then "Used to define precise properties or characteristics of other application elements when no real attributes have been assigned."
    else if i == 27 then "A container used to group multiple instances of AoParameter."
    else if i == 28 then "Used for storing various types of log data. This entity is almost never used in practice."
    else "A generic base element serving as a template from which application elements can be derived freely and arbitrarily often to model non-standard application data."
  }

  const TemplateText := "openMDM Template Entity. Used for administration."
  const CatalogText := "openMDM Catalog Entity. Used for administration."

  // ---------------------------------------------------------------- searches over the keys

  /** Where `name` is stored: `name in DESCRIPTIONS`. */
  function ExactIndex(keys: seq<string>, name: string): (r: Option<nat>)
    ensures r.None? <==> name !in keys
    ensures r.Some? ==> r.value < |keys| && keys[r.value] == name
  {
    if keys == [] then None
    else if keys[0] == name then Some(0)
    else match ExactIndex(keys[1..], name)
      case Some(i) => Some(i + 1)
      case None => None
  }

  /** The first key whose lower-cased form is `folded`, as the `for` loop over the items finds it. */
  function FoldedIndex(keys: seq<string>, folded: string): (r: Option<nat>)
    ensures r.None? <==> forall j :: 0 <= j < |keys| ==> Lower(keys[j]) != folded
    ensures r.Some? ==> r.value < |keys| && Lower(keys[r.value]) == folded
    ensures r.Some? ==> forall j :: 0 <= j < r.value ==> Lower(keys[j]) != folded
  {
    if keys == [] then None
    else if Lower(keys[0]) == folded then Some(0)
    else match FoldedIndex(keys[1..], folded)
      case Some(i) => Some(i + 1)
      case None => None
  }

  /** The direct lookup first, then the case-insensitive scan. */
  function LookupIndex(keys: seq<string>, name: string): Option<nat> {
    match ExactIndex(keys, name)
    case Some(i) => Some(i)
    case None => FoldedIndex(keys, Lower(name))
  }

  /** No two keys are equal once lower-cased. */
  predicate FoldedDistinct(keys: seq<string>) {
    forall i, j :: 0 <= i < j < |keys| ==> Lower(keys[i]) != Lower(keys[j])
  }

  /** With case-distinct keys the direct lookup finds only what the scan finds. */
  lemma {:induction false} LookupIsFolded(keys: seq<string>, name: string)
    requires FoldedDistinct(keys)
    ensures LookupIndex(keys, name) == FoldedIndex(keys, Lower(name))
  {
    var exact := ExactIndex(keys, name);
    if exact.Some? {
      var i := exact.value;
      assert Lower(keys[i]) == Lower(name);
      var j := FoldedIndex(keys, Lower(name)).value;
      assert j <= i;
    }
  }

  /** With case-distinct keys, a key in any letter case is found at its own position. */
  lemma {:induction false} FoldedIndexOfKey(keys: seq<string>, i: nat, name: string)
    requires FoldedDistinct(keys) && i < |keys| && Lower(name) == Lower(keys[i])
    ensures LookupIndex(keys, name) == Some(i)
  {
    LookupIsFolded(keys, name);
    var j := FoldedIndex(keys, Lower(name)).value;
    assert j <= i;
  }

  // ---------------------------------------------------------------- the base names are case-distinct

  /**
   * The position of a base name in the table, recovered from its length and
   * its third and fourth letters ignoring case (-1 for no base name).
   */
  function TablePosition(n: nat, c2: char, c3: char): int {
    if n == 5 then if c2 == 'l' && c3 == 'o' then 28 else 29
    else if n == 6 then if c2 == 'f' && c3 == 'i' then 3 else if c2 == 'u' && c3 == 'n' then 6 else if c2 == 't' && c3 == 'e' then 15 else 24
    else if n == 9 then if c2 == 'n' && c3 == 'a' then 1 else 16
    else if n == 10 then 5
    else if n == 11 then if c2 == 'u' && c3 == 'n' then 9 else if c2 == 's' && c3 == 'u' then 12 else if c2 == 'u' && c3 == 's' then 25 else 26
    else if n == 12 then 23
    else if n == 13 then if c2 == 'e' && c3 == 'n' then 0 else if c2 == 'm' && c3 == 'i' then 4 else if c2 == 'm' && c3 == 'e' then 10 else 13
    else if n == 14 then if c2 == 'a' && c3 == 't' then 2 else if c2 == 't' && c3 == 'e' then 19 else 27
    else if n == 15 then if c2 == 'q' && c3 == 'u' then 8 else if c2 == 'u' && c3 == 'n' then 17 else 21
    else if n == 18 then 20
    else if n == 19 then if c2 == 'p' && c3 == 'h' then 7 else if c2 == 'e' && c3 == 'x' then 14 else if c2 == 'u' && c3 == 'n' then 18 else 22
    else if n == 21 then 11
    else -1
  }


  /** Names equal up to letter case have the same table position. */
  lemma {:induction false} TablePositionFolds(a: string, b: string)
    requires |a| >= 4 && |b| >= 4 && Lower(a) == Lower(b)
    ensures TablePosition(|a|, LowerChar(a[2]), LowerChar(a[3])) == TablePosition(|b|, LowerChar(b[2]), LowerChar(b[3]))
  {
    assert Lower(a)[2] == Lower(b)[2] && Lower(a)[3] == Lower(b)[3];
  }

  lemma {:induction false} PositionsLow()
    ensures forall i :: 0 <= i < 15 ==> var k := BaseNames[i];
              |k| >= 4 && TablePosition(|k|, LowerChar(k[2]), LowerChar(k[3])) == i
  {
  }

  lemma {:induction false} PositionsHigh()
    ensures forall i :: 15 <= i < |BaseNames| ==> var k := BaseNames[i];
              |k| >= 4 && TablePosition(|k|, LowerChar(k[2]), LowerChar(k[3])) == i
  {
  }

  /** No two base names in the table differ only in letter case. */
  lemma {:induction false} BaseNamesFoldedDistinct()
    ensures FoldedDistinct(BaseNames)
  {
    PositionsLow();
    PositionsHigh();
    forall i, j | 0 <= i < j < |BaseNames| ensures Lower(BaseNames[i]) != Lower(BaseNames[j]) {
      if Lower(BaseNames[i]) == Lower(BaseNames[j]) {
        TablePositionFolds(BaseNames[i], BaseNames[j]);
      }
    }
  }

  // ---------------------------------------------------------------- the lookups

  /** `EntityDescriptions.get_description` */
  function GetDescription(name: string): (r: Option<string>)
    ensures r.Some? <==> HasDescription(name)
  {
    match LookupIndex(BaseNames, name)
    case Some(i) => Some(DescriptionText(i))
    case None => None
  }

  /** `EntityDescriptions.has_description` */
  predicate HasDescription(name: string) {
    || name in BaseNames
    || exists i :: 0 <= i < |BaseNames| && Lower(BaseNames[i]) == Lower(name)
  }

  /** A base name in any letter case finds its own description. */
  lemma {:induction false} DescriptionOfBaseName(i: nat, name: string)
    requires i < |BaseNames| && Lower(name) == Lower(BaseNames[i])
    ensures GetDescription(name) == Some(DescriptionText(i))
  {
    BaseNamesFoldedDistinct();
    FoldedIndexOfKey(BaseNames, i, name);
  }

  /** Changing only the letter case of a name does not change its description. */
  lemma {:induction false} DescriptionIgnoresCase(a: string, b: string)
    requires Lower(a) == Lower(b)
    ensures GetDescription(a) == GetDescription(b)
  {
    BaseNamesFoldedDistinct();
    LookupIsFolded(BaseNames, a);
    LookupIsFolded(BaseNames, b);
  }

  /** A found description is the one stored under a key equal to `name` ignoring case. */
  lemma {:induction false} DescriptionFound(name: string)
    requires GetDescription(name).Some?
    ensures exists i :: 0 <= i < |BaseNames| && Lower(BaseNames[i]) == Lower(name)
                        && GetDescription(name) == Some(DescriptionText(i))
  {
    var i := LookupIndex(BaseNames, name).value;
    if ExactIndex(BaseNames, name).None? {
      assert Lower(BaseNames[i]) == Lower(name);
    }
  }

  /**
   * `EntityDescriptions.get_entity_description` for an entity given by its
   * name and its base name.
   */
  function GetEntityDescription(entityName: string, baseName: string): (r: Option<string>)
    ensures baseName != "AoAny" ==> r == GetDescription(baseName)
    ensures baseName == "AoAny" ==> r.Some?
    ensures baseName == "AoAny" && StartsWith(entityName, "Tpl") ==> r == Some(TemplateText)
    ensures baseName == "AoAny" && StartsWith(entityName, "Cat") ==> r == Some(CatalogText)
  {
    if baseName == "AoAny" && StartsWith(entityName, "Tpl") then Some(TemplateText)
    else if baseName == "AoAny" && StartsWith(entityName, "Cat") then Some(CatalogText)
    else
      assert baseName == "AoAny" ==> baseName == BaseNames[29];
      GetDescription(baseName)
  }

  /** `EntityDescriptions.list_base_entities` */
  method ListBaseEntities() returns (r: seq<string>)
    ensures Sorting.StrictlyAscending(r)
    ensures forall k :: k in r <==> k in BaseNames
    ensures forall k :: k in r ==> GetDescription(k).Some?
  {
    r := Sorting.SortedSet(set k | k in BaseNames);
  }
}
