/**
 * `SchemaInspector`: schema answers computed from the ODS model cache.
 * The cache is the external `odsbox` `ModelCache`; it is modelled by the
 * entities it holds and by its lookups, which are given as functions
 * (`entity`, `entity_by_base_name`, `attribute_no_throw`,
 * `relation_no_throw`). A lookup that raises gives `Err`.
 */
module Schemas {
  import opened Text
  import opened Json
  import Sorting
  import EntityDescriptions

  // ---------------------------------------------------------------- keyed items

  /** One `(key, value)` of a dict the inspector iterates over. */
  datatype Item<T> = Item(key: string, value: T)

  /** `list(d.keys())` for a dict of typed items; `Json.Keys` is the same for a dict of JSON values. */
  function ItemKeys<T>(items: seq<Item<T>>): (r: seq<string>)
    ensures |r| == |items|
    ensures forall i :: 0 <= i < |items| ==> r[i] == items[i].key
  {
    if items == [] then [] else [items[0].key] + ItemKeys(items[1..])
  }

  /** `d[key]` when `key in d`: the first item with that key. */
  function Find<T>(items: seq<Item<T>>, key: string): (r: Option<T>)
    ensures r.None? <==> forall i :: 0 <= i < |items| ==> items[i].key != key
  {
    if items == [] then None
    else if items[0].key == key then Some(items[0].value)
    else
      assert forall i :: 1 <= i < |items| ==> items[i] == items[1..][i - 1];
      Find(items[1..], key)
  }

  /** A found value is stored under the key, and no earlier item has that key. */
  lemma {:induction false} FindFirst<T>(items: seq<Item<T>>, key: string)
    requires Find(items, key).Some?
    ensures exists i :: 0 <= i < |items| && items[i] == Item(key, Find(items, key).value)
                        && forall j :: 0 <= j < i ==> items[j].key != key
  {
    if items[0].key != key {
      FindFirst(items[1..], key);
      var i :| 0 <= i < |items[1..]| && items[1..][i] == Item(key, Find(items, key).value)
               && forall j :: 0 <= j < i ==> items[1..][j].key != key;
      assert items[i + 1] == Item(key, Find(items, key).value);
      assert forall j :: 1 <= j < i + 1 ==> items[j] == items[1..][j - 1];
    }
  }

  /** `{k: f(v) for k, v in d.items()}`, written by the source as a loop of assignments. */
  function MapValues<A, B>(items: seq<Item<A>>, f: A -> B): (r: seq<Item<B>>)
    ensures |r| == |items|
    ensures forall i :: 0 <= i < |items| ==> r[i] == Item(items[i].key, f(items[i].value))
  {
    if items == [] then [] else [Item(items[0].key, f(items[0].value))] + MapValues(items[1..], f)
  }

  /** The mapped dict has the same keys in the same order. */
  lemma {:induction false} MapValuesKeys<A, B>(items: seq<Item<A>>, f: A -> B)
    ensures ItemKeys(MapValues(items, f)) == ItemKeys(items)
  {
  }

  /** `r` is `sorted(d.items())` for the dict `items`: every key once, in ascending order, with its value. */
  ghost predicate SortedView<T>(r: seq<Item<T>>, items: seq<Item<T>>) {
    && Sorting.StrictlyAscending(ItemKeys(r))
    && (forall k :: k in ItemKeys(r) <==> k in ItemKeys(items))
    && (forall i :: 0 <= i < |r| ==> Find(items, r[i].key) == Some(r[i].value))
  }

  /** Sorting and then mapping the values is mapping and then sorting. */
  lemma {:induction false} SortedViewMapped<A, B>(r: seq<Item<A>>, items: seq<Item<A>>, f: A -> B)
    requires SortedView(r, items)
    ensures SortedView(MapValues(r, f), MapValues(items, f))
  {
    MapValuesKeys(r, f);
    MapValuesKeys(items, f);
    forall i | 0 <= i < |r| ensures Find(MapValues(items, f), r[i].key) == Some(f(r[i].value)) {
      FindMapped(items, f, r[i].key);
    }
  }

  /** `sorted(d.items())` */
  method SortedItems<T>(items: seq<Item<T>>) returns (r: seq<Item<T>>)
    ensures SortedView(r, items)
  {
    var names := set i | 0 <= i < |items| :: items[i].key;
    var keys := Sorting.SortedSet(names);
    r := [];
    var j := 0;
    while j < |keys|
      invariant 0 <= j <= |keys|
      invariant |r| == j
      invariant forall i :: 0 <= i < j ==> r[i].key == keys[i] && Find(items, keys[i]) == Some(r[i].value)
    {
      var found := Find(items, keys[j]);
      assert found.Some? by {
        assert keys[j] in names;
        var i :| 0 <= i < |items| && items[i].key == keys[j];
      }
      r := r + [Item(keys[j], found.value)];
      j := j + 1;
    }
    assert ItemKeys(r) == keys;
    forall k ensures k in keys <==> k in ItemKeys(items) {
      if k in ItemKeys(items) {
        var i :| 0 <= i < |items| && ItemKeys(items)[i] == k;
        assert items[i].key == k;
      }
    }
  }

  // ---------------------------------------------------------------- the model cache

  /** An application attribute; `dataType` is the `DataTypeEnum` name, e.g. `DT_STRING`. */
  datatype Attribute = Attribute(name: string, baseName: string, dataType: string, obligatory: bool)

  /** An application relation; `relationship` is the `RelationshipEnum` name, e.g. `RS_FATHER`. */
  datatype Relation = Relation(
    name: string, baseName: string, entityName: string,
    inverseName: string, inverseBaseName: string,
    rangeMin: int, rangeMax: int, inverseRangeMax: int,
    relationship: string)

  /** An application element with its attribute and relation maps, in iteration order. */
  datatype Entity = Entity(
    name: string, baseName: string,
    attributes: seq<Item<Attribute>>, relations: seq<Item<Relation>>)

  /** The `ModelCache`: the model's entities by name and its lookups. */
  datatype ModelCache = ModelCache(
    entities: map<string, Entity>,
    entity: string -> Result<Entity>,
    entityByBaseName: string -> Result<Option<Entity>>,
    attributeNoThrow: (Entity, string) -> Option<Attribute>,
    relationNoThrow: (Entity, string) -> Option<Relation>)

  /** The lookups only answer with entities of the model, held under their own names. */
  ghost predicate Valid(c: ModelCache) {
    && (forall n :: n in c.entities ==> c.entities[n].name == n)
    && (forall n :: c.entity(n).Ok? ==> c.entity(n).value.name in c.entities)
    && (forall n :: c.entityByBaseName(n).Ok? && c.entityByBaseName(n).value.Some? ==>
          c.entityByBaseName(n).value.value.name in c.entities)
  }

  const NotLoadedError := "Model not loaded"
  const NotLoadedHint := "Connect to ODS server using 'ods_connect' tool first"

  // ---------------------------------------------------------------- classification rules

  /** `s[3:]` */
  function DropPrefix(s: string): (r: string)
    ensures |s| >= 3 ==> s[..3] + r == s
    ensures |s| < 3 ==> r == []
  {
    if |s| < 3 then [] else s[3..]
  }

  /** The `attributes` entry of `get_entity_schema`. */
  datatype AttributeInfo = AttributeInfo(baseName: string, dataType: string, isArray: bool, nullable: bool)

  /** Sequence types (`DS_...`) and `DT_UNKNOWN` are arrays. */
  predicate IsArrayType(dataType: string) {
    StartsWith(dataType, "DS_") || dataType == "DT_UNKNOWN"
  }

  function AttributeInfoOf(a: Attribute): (r: AttributeInfo)
    ensures r.isArray <==> IsArrayType(a.dataType)
    ensures r.nullable <==> !a.obligatory
    ensures r.baseName == a.baseName && r.dataType == DropPrefix(a.dataType)
  {
    AttributeInfo(a.baseName, DropPrefix(a.dataType), IsArrayType(a.dataType), !a.obligatory)
  }

  /** A sequence type is an array, and its data type is the name after `DS_`. */
  lemma {:induction false} SequenceType(a: Attribute, element: string)
    requires a.dataType == "DS_" + element
    ensures AttributeInfoOf(a).isArray && AttributeInfoOf(a).dataType == element
  {
    assert a.dataType[..3] == "DS_";
  }

  /** A scalar type other than `DT_UNKNOWN` is not an array; its data type is the name after `DT_`. */
  lemma {:induction false} ScalarType(a: Attribute, scalar: string)
    requires a.dataType == "DT_" + scalar && scalar != "UNKNOWN"
    ensures !AttributeInfoOf(a).isArray && AttributeInfoOf(a).dataType == scalar
  {
    assert a.dataType[..3] == "DT_";
    assert a.dataType[1] != "DS_"[1];
    assert a.dataType != "DT_UNKNOWN" by {
      assert a.dataType[3..] == scalar;
      assert "DT_UNKNOWN"[3..] == "UNKNOWN";
    }
  }

  /** The `relationships` entry of `get_entity_schema`. */
  datatype RelationInfo = RelationInfo(
    baseName: string, targetEntity: string, inverseName: string, inverseBaseName: string,
    relationshipType: string, nullable: bool, relationship: string)

  /** `{(-1, -1): "n:m", (1, -1): "1:n"}.get((range_max, inverse_range_max), "n:1")` */
  function RelationshipType(rangeMax: int, inverseRangeMax: int): (r: string)
    ensures r == "n:m" <==> rangeMax == -1 && inverseRangeMax == -1
    ensures r == "1:n" <==> rangeMax == 1 && inverseRangeMax == -1
    ensures r == "n:1" || r == "n:m" || r == "1:n"
  {
    assert "n:m"[2] != "n:1"[2] && "n:m"[0] != "1:n"[0] && "1:n"[0] != "n:1"[0];
    if rangeMax == -1 && inverseRangeMax == -1 then "n:m"
    else if rangeMax == 1 && inverseRangeMax == -1 then "1:n"
    else "n:1"
  }

  function RelationInfoOf(r: Relation): (info: RelationInfo)
    ensures info.nullable <==> r.rangeMin == 0
    ensures info.relationshipType == RelationshipType(r.rangeMax, r.inverseRangeMax)
    ensures info.targetEntity == r.entityName && info.inverseName == r.inverseName
    ensures info.relationship == DropPrefix(r.relationship)
  {
    RelationInfo(r.baseName, r.entityName, r.inverseName, r.inverseBaseName,
                 RelationshipType(r.rangeMax, r.inverseRangeMax), r.rangeMin == 0,
                 DropPrefix(r.relationship))
  }

  // ---------------------------------------------------------------- schema_list_entities

  /** One entry of `schema_list_entities`. */
  datatype EntitySummary = EntitySummary(name: string, baseName: string, relations: seq<string>, description: Option<string>)

  datatype EntityListing =
    | ListingNotLoaded
    | Listing(count: nat, entities: seq<EntitySummary>)

  function SummaryOf(e: Entity): EntitySummary {
    EntitySummary(e.name, e.baseName, ItemKeys(e.relations),
                  EntityDescriptions.GetEntityDescription(e.name, e.baseName))
  }

  /** The loop `for _, v in d.items(): out.append(f(v))`. */
  method AppendEach<A, B>(items: seq<Item<A>>, f: A -> B) returns (r: seq<B>)
    ensures |r| == |items|
    ensures forall i :: 0 <= i < |items| ==> r[i] == f(items[i].value)
  {
    r := [];
    var i := 0;
    while i < |items|
      invariant 0 <= i <= |items|
      invariant |r| == i
      invariant forall j :: 0 <= j < i ==> r[j] == f(items[j].value)
    {
      r := r + [f(items[i].value)];
      i := i + 1;
    }
  }

  /** `SchemaInspector.schema_list_entities` over `model.entities`; `None` is a model that is not loaded. */
  method SchemaListEntities(model: Option<seq<Item<Entity>>>) returns (r: EntityListing)
    ensures model.None? <==> r == ListingNotLoaded
    ensures model.Some? ==> r.count == |r.entities| == |model.value|
    ensures model.Some? ==> forall i :: 0 <= i < |model.value| ==> r.entities[i] == SummaryOf(model.value[i].value)
  {
    if model.None? {
      return ListingNotLoaded;
    }
    var entities := AppendEach(model.value, SummaryOf);
    r := Listing(|entities|, entities);
  }

  // ---------------------------------------------------------------- get_entity_schema

  datatype EntitySchema = EntitySchema(
    entity: string, derivedFrom: string,
    attributes: seq<Item<AttributeInfo>>, relationships: seq<Item<RelationInfo>>,
    description: Option<string>)

  datatype SchemaResponse =
    | SchemaNotLoaded
    | SchemaFailed(error: string, entity: string)
    | SchemaOk(schema: EntitySchema)

  function SchemaOfEntity(e: Entity): EntitySchema {
    EntitySchema(e.name, e.baseName, MapValues(e.attributes, AttributeInfoOf),
                 MapValues(e.relations, RelationInfoOf),
                 EntityDescriptions.GetEntityDescription(e.name, e.baseName))
  }

  /** `get_entity_schema`: the entity's lookup error, or its schema. */
  function EntitySchemaOf(cache: Option<ModelCache>, entityName: string): (r: SchemaResponse)
    ensures cache.None? <==> r == SchemaNotLoaded
    ensures r.SchemaFailed? ==>
              && cache.Some? && cache.value.entity(entityName).Err?
              && r.entity == entityName && r.error == cache.value.entity(entityName).error.message
    ensures r.SchemaOk? ==> cache.value.entity(entityName).Ok?
    ensures r.SchemaOk? ==> var e := cache.value.entity(entityName).value;
              ItemKeys(r.schema.attributes) == ItemKeys(e.attributes)
              && ItemKeys(r.schema.relationships) == ItemKeys(e.relations)
              && r.schema.entity == e.name && r.schema.derivedFrom == e.baseName
  {
    if cache.None? then SchemaNotLoaded
    else match cache.value.entity(entityName)
      case Err(e) => SchemaFailed(e.message, entityName)
      case Ok(e) =>
        MapValuesKeys(e.attributes, AttributeInfoOf);
        MapValuesKeys(e.relations, RelationInfoOf);
        SchemaOk(SchemaOfEntity(e))
  }

  /** The loop `for k, v in d.items(): out[k] = f(v)` over a dict with distinct keys. */
  method MapItems<A, B>(items: seq<Item<A>>, f: A -> B) returns (r: seq<Item<B>>)
    ensures r == MapValues(items, f)
  {
    r := [];
    var i := 0;
    while i < |items|
      invariant 0 <= i <= |items|
      invariant |r| == i
      invariant forall j :: 0 <= j < i ==> r[j] == Item(items[j].key, f(items[j].value))
    {
      r := r + [Item(items[i].key, f(items[i].value))];
      i := i + 1;
    }
  }

  /** `SchemaInspector.get_entity_schema` */
  method GetEntitySchema(cache: Option<ModelCache>, entityName: string) returns (r: SchemaResponse)
    ensures r == EntitySchemaOf(cache, entityName)
  {
    if cache.None? {
      return SchemaNotLoaded;
    }
    var found := cache.value.entity(entityName);
    if found.Err? {
      return SchemaFailed(found.error.message, entityName);
    }
    var e := found.value;
    var attributes := MapItems(e.attributes, AttributeInfoOf);
    var relationships := MapItems(e.relations, RelationInfoOf);
    r := SchemaOk(EntitySchema(e.name, e.baseName, attributes, relationships,
                               EntityDescriptions.GetEntityDescription(e.name, e.baseName)));
  }

  // ---------------------------------------------------------------- schema_field_exists

  datatype FieldResponse =
    | FieldNotLoaded
    | FieldFailed(error: string, entity: string)
    | IsAttribute(attribute: AttributeInfo)
    | IsRelationship(relationship: RelationInfo)
    | FieldMissing(entity: string, field: string, availableFields: seq<string>, suggestions: seq<string>)

  /** `s[:n]` */
  function Take(s: seq<string>, n: nat): (r: seq<string>)
    ensures |r| <= n && |r| <= |s| && r == s[..|r|]
    ensures |s| >= n ==> |r| == n
  {
    if |s| <= n then s else s[..n]
  }

  /**
   * `schema_field_exists` as evidently intended, with `suggest` standing for
   * the fuzzy matcher: the attribute is tried first, then the relation,
   * and otherwise every field name is offered.
   */
  function FieldExists(cache: Option<ModelCache>, entityName: string, fieldName: string,
                       suggest: (seq<string>, string) -> seq<string>): (r: FieldResponse)
  {
    if cache.None? then FieldNotLoaded
    else
      var c := cache.value;
      match c.entity(entityName)
      case Err(e) => FieldFailed(e.message, entityName)
      case Ok(e) =>
        match EntitySchemaOf(cache, e.name)
        case SchemaFailed(message, name) => FieldFailed(message, name)
        case SchemaNotLoaded => FieldNotLoaded
        case SchemaOk(schema) =>
          var attribute := c.attributeNoThrow(e, fieldName);
          if attribute.Some? && Find(schema.attributes, attribute.value.name).Some? then
            IsAttribute(Find(schema.attributes, attribute.value.name).value)
          else
            var relation := c.relationNoThrow(e, fieldName);
            if relation.Some? && Find(schema.relationships, relation.value.name).Some? then
              IsRelationship(Find(schema.relationships, relation.value.name).value)
            else
              var available := ItemKeys(schema.attributes) + ItemKeys(schema.relationships);
              FieldMissing(e.name, fieldName, available, Take(suggest(available, fieldName), 5))
  }

  /**
   * When the entity's schema is found, an attribute match wins over a
   * relation match, and a field that matches neither lists the attribute
   * names followed by the relation names.
   */
  lemma {:induction false} FieldExistsCases(c: ModelCache, entityName: string, fieldName: string,
                         suggest: (seq<string>, string) -> seq<string>)
    requires c.entity(entityName).Ok?
    requires var e := c.entity(entityName).value; c.entity(e.name) == Ok(e)
    ensures var e := c.entity(entityName).value;
            var r := FieldExists(Some(c), entityName, fieldName, suggest);
            var a := c.attributeNoThrow(e, fieldName);
            var rel := c.relationNoThrow(e, fieldName);
            var attributeHit := a.Some? && a.value.name in ItemKeys(e.attributes);
            var relationHit := rel.Some? && rel.value.name in ItemKeys(e.relations);
            && (attributeHit ==> r == IsAttribute(AttributeInfoOf(Find(e.attributes, a.value.name).value)))
            && (!attributeHit && relationHit ==> r == IsRelationship(RelationInfoOf(Find(e.relations, rel.value.name).value)))
            && (!attributeHit && !relationHit ==>
                  r.FieldMissing? && r.entity == e.name && r.field == fieldName && |r.suggestions| <= 5
                  && r.availableFields == ItemKeys(e.attributes) + ItemKeys(e.relations))
  {
    var e := c.entity(entityName).value;
    var schema := SchemaOfEntity(e);
    MapValuesKeys(e.attributes, AttributeInfoOf);
    MapValuesKeys(e.relations, RelationInfoOf);
    var a := c.attributeNoThrow(e, fieldName);
    if a.Some? {
      FindMapped(e.attributes, AttributeInfoOf, a.value.name);
    }
    var rel := c.relationNoThrow(e, fieldName);
    if rel.Some? {
      FindMapped(e.relations, RelationInfoOf, rel.value.name);
    }
  }

  /** Looking a key up in the mapped dict maps the value found in the original. */
  lemma {:induction false} FindMapped<A, B>(items: seq<Item<A>>, f: A -> B, key: string)
    ensures Find(MapValues(items, f), key) == match Find(items, key) case Some(v) => Some(f(v)) case None => None
    ensures Find(items, key).Some? <==> key in ItemKeys(items)
  {
    if items != [] && items[0].key != key {
      FindMapped(items[1..], f, key);
      assert MapValues(items, f)[1..] == MapValues(items[1..], f);
      assert ItemKeys(items) == [items[0].key] + ItemKeys(items[1..]);
    }
  }

  /** The text of the `NameError` raised when the source looks up its suggestion helper. */
  const MangledHelperError := "name '_SchemaInspector__get_suggestion' is not defined"

  /**
   * `schema_field_exists` as written: inside the class body the helper's
   * name `__get_suggestion` is mangled to `_SchemaInspector__get_suggestion`,
   * which does not exist, so the `NameError` is caught by the method's own
   * `except` and reported as an error.
   */
  function FieldExistsAsWritten(cache: Option<ModelCache>, entityName: string, fieldName: string): (r: FieldResponse)
  {
    if cache.None? then FieldNotLoaded
    else
      var c := cache.value;
      match c.entity(entityName)
      case Err(e) => FieldFailed(e.message, entityName)
      case Ok(e) =>
        match EntitySchemaOf(cache, e.name)
        case SchemaFailed(message, name) => FieldFailed(message, name)
        case SchemaNotLoaded => FieldNotLoaded
        case SchemaOk(schema) =>
          var attribute := c.attributeNoThrow(e, fieldName);
          if attribute.Some? && Find(schema.attributes, attribute.value.name).Some? then
            IsAttribute(Find(schema.attributes, attribute.value.name).value)
          else
            var relation := c.relationNoThrow(e, fieldName);
            if relation.Some? && Find(schema.relationships, relation.value.name).Some? then
              IsRelationship(Find(schema.relationships, relation.value.name).value)
            else
              FieldFailed(MangledHelperError, entityName)
  }

  /**
   * The two agree on every field that exists, and where the intended
   * version reports a missing field the code as written reports the
   * `NameError` instead, so `exists: False` is never returned.
   */
  lemma {:induction false} MissingFieldRaises(cache: Option<ModelCache>, entityName: string, fieldName: string,
                           suggest: (seq<string>, string) -> seq<string>)
    ensures var intended := FieldExists(cache, entityName, fieldName, suggest);
            var written := FieldExistsAsWritten(cache, entityName, fieldName);
            && !written.FieldMissing?
            && (intended.FieldMissing? ==> written == FieldFailed(MangledHelperError, entityName))
            && (!intended.FieldMissing? ==> written == intended)
  {
  }

  /**
   * A loaded entity for which the cache finds neither an attribute nor a
   * relation of the requested name shows the difference.
   */
  lemma {:induction false} MissingFieldExample(c: ModelCache, entityName: string, fieldName: string,
                            suggest: (seq<string>, string) -> seq<string>)
    requires c.entity(entityName).Ok?
    requires var e := c.entity(entityName).value;
             c.entity(e.name) == Ok(e) && c.attributeNoThrow(e, fieldName).None? && c.relationNoThrow(e, fieldName).None?
    ensures FieldExists(Some(c), entityName, fieldName, suggest).FieldMissing?
    ensures FieldExistsAsWritten(Some(c), entityName, fieldName) == FieldFailed(MangledHelperError, entityName)
  {
  }

  // ---------------------------------------------------------------- format_entity_schema_as_markdown

  /** The check and cross marks of the tables. */
  function Mark(b: bool): string {
    if b then "✓" else "✗"
  }

  /** One attribute row after its name: base name, data type, array and nullable marks. */
  datatype AttributeRow = AttributeRow(baseName: string, dataType: string, isArray: string, nullable: string)

  /** One relationship row after its name. */
  datatype RelationRow = RelationRow(
    targetEntity: string, relationshipType: string, nullable: string, inverseName: string, relationship: string)

  /** The document `format_entity_schema_as_markdown` renders, by its parts; rows are keyed by name. */
  datatype Markdown =
    | MarkdownError(entityName: string, error: string)
    | MarkdownSchema(entity: string, baseName: string, description: Option<string>,
                     attributeRows: seq<Item<AttributeRow>>, relationRows: seq<Item<RelationRow>>)

  function AttributeRowOf(info: AttributeInfo): AttributeRow {
    AttributeRow(info.baseName, info.dataType, Mark(info.isArray), Mark(info.nullable))
  }

  function RelationRowOf(info: RelationInfo): RelationRow {
    RelationRow(info.targetEntity, info.relationshipType, Mark(info.nullable), info.inverseName, info.relationship)
  }

  /** `f"**Description**: {description}" if description else ""` */
  function DescriptionLine(description: Option<string>): Option<string> {
    if description.Some? && description.value != [] then Some(description.value) else None
  }

  /**
   * `SchemaInspector.format_entity_schema_as_markdown`: an error document,
   * or the schema with one row per attribute and per relationship, each
   * table sorted by name.
   */
  method FormatEntitySchemaAsMarkdown(cache: Option<ModelCache>, entityName: string) returns (md: Markdown)
    ensures var s := EntitySchemaOf(cache, entityName);
            && (s.SchemaNotLoaded? ==> md == MarkdownError(entityName, NotLoadedError))
            && (s.SchemaFailed? ==> md == MarkdownError(entityName, s.error))
    ensures var s := EntitySchemaOf(cache, entityName);
            s.SchemaOk? ==>
              && md.MarkdownSchema?
              && md.entity == s.schema.entity && md.baseName == s.schema.derivedFrom
              && md.description == DescriptionLine(s.schema.description)
              && SortedView(md.attributeRows, MapValues(s.schema.attributes, AttributeRowOf))
              && SortedView(md.relationRows, MapValues(s.schema.relationships, RelationRowOf))
  {
    var schema := GetEntitySchema(cache, entityName);
    match schema {
      case SchemaNotLoaded => md := MarkdownError(entityName, NotLoadedError);
      case SchemaFailed(error, _) => md := MarkdownError(entityName, error);
      case SchemaOk(s) =>
        var attributes := SortedItems(s.attributes);
        var relationships := SortedItems(s.relationships);
        SortedViewMapped(attributes, s.attributes, AttributeRowOf);
        SortedViewMapped(relationships, s.relationships, RelationRowOf);
        md := MarkdownSchema(s.entity, s.derivedFrom, DescriptionLine(s.description),
                             MapValues(attributes, AttributeRowOf), MapValues(relationships, RelationRowOf));
    }
  }
}
