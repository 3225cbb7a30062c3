/**
 * `SchemaInspector.schema_test_to_measurement_hierarchy`: starting at the
 * entity derived from `AoTest`, follow each entity's `children` relation
 * to the next entity, until there is none or an entity comes round again.
 */
module SchemaHierarchy {
  import opened Json
  import opened Schemas
  import EntityDescriptions

  /** One entry of `hierarchy_chain`. */
  datatype ChainEntry = ChainEntry(
    name: string, baseName: string, parentRelation: Option<string>,
    queryExample: seq<Member>, description: Option<string>)

  datatype HierarchyResponse =
    | HierarchyNotLoaded
    | HierarchyOk(chain: seq<ChainEntry>, depth: nat)
    | HierarchyFailed(error: PyError, chain: seq<ChainEntry>)

  /** `{"name": {"$like": "*"}}`, with the parent link set to 4711 below the first level. */
  function Condition(parent: Option<Relation>): seq<Member> {
    var like := [Member("name", Object([Member("$like", Str("*"))]))];
    if parent.Some? then DictSet(like, parent.value.inverseName, Int(4711)) else like
  }

  /** The example query for listing the instances of an entity of the chain. */
  function QueryExample(entityName: string, parent: Option<Relation>): seq<Member> {
    DictOf([Member(entityName, Object(Condition(parent))),
            Member("$attributes", Object([Member("id", Int(1)), Member("name", Int(1))])),
            Member("$options", Object([Member("$rowlimit", Int(100))]))])
  }

  /** Below the first level the condition selects the children of instance 4711. */
  lemma {:induction false} ConditionLinksParent(parent: Relation)
    ensures Get(Condition(Some(parent)), parent.inverseName) == Some(Int(4711))
    ensures parent.inverseName != "name" ==>
              Get(Condition(Some(parent)), "name") == Some(Object([Member("$like", Str("*"))]))
  {
    var like := [Member("name", Object([Member("$like", Str("*"))]))];
    DictSetGet(like, parent.inverseName, Int(4711), "name");
  }

  /** The example query holds the condition under the entity's own name. */
  lemma {:induction false} QueryExampleSelects(entityName: string, parent: Option<Relation>)
    requires entityName != "$attributes" && entityName != "$options"
    ensures Get(QueryExample(entityName, parent), entityName) == Some(Object(Condition(parent)))
  {
    var ms := [Member(entityName, Object(Condition(parent))),
               Member("$attributes", Object([Member("id", Int(1)), Member("name", Int(1))])),
               Member("$options", Object([Member("$rowlimit", Int(100))]))];
    assert "$attributes"[1] != "$options"[1];
    DictOfDistinct(ms);
  }

  function EntryOf(e: Entity, parent: Option<Relation>): ChainEntry {
    ChainEntry(e.name, e.baseName,
               if parent.Some? then Some(parent.value.inverseName) else None,
               QueryExample(e.name, parent),
               EntityDescriptions.GetEntityDescription(e.name, e.baseName))
  }

  /** One pass of the loop: the entity listed and the relation it was reached through. */
  datatype Step = Step(entity: Entity, parent: Option<Relation>)

  /** The walk from one entity on: its steps, and the exception that ended it. */
  datatype Walked = Walked(steps: seq<Step>, error: Option<PyError>)

  function EntryOfStep(s: Step): ChainEntry {
    EntryOf(s.entity, s.parent)
  }

  /** `[f(x) for x in s]` */
  function MapSeq<A, B>(s: seq<A>, f: A -> B): (r: seq<B>)
    ensures |r| == |s|
    ensures forall i :: 0 <= i < |s| ==> r[i] == f(s[i])
  {
    if s == [] then [] else [f(s[0])] + MapSeq(s[1..], f)
  }

  lemma {:induction false} Shrinks(all: set<string>, visited: set<string>, x: string)
    requires x in all && x !in visited
    ensures |all - (visited + {x})| < |all - visited|
  {
    assert all - visited == (all - (visited + {x})) + {x};
  }

  /**
   * One pass of the `while` loop and the rest of the walk: `current` is
   * reached through `parent`, and `visited` holds the names already listed.
   */
  function Walk(c: ModelCache, current: Entity, parent: Option<Relation>, visited: set<string>): Walked
    requires Valid(c) && current.name in c.entities
    decreases c.entities.Keys - visited
  {
    if current.name in visited then Walked([], None)
    else
      var step := Step(current, parent);
      var children := c.relationNoThrow(current, "children");
      if children.None? then Walked([step], None)
      else match c.entity(children.value.entityName)
        case Err(e) => Walked([step], Some(e))
        case Ok(next) =>
          var rest := Walk(c, next, children, visited + {current.name});
          Walked([step] + rest.steps, rest.error)
  }

  /** One pass of the loop that finds the next entity: its step comes before the rest of the walk. */
  lemma {:induction false} WalkNext(c: ModelCache, current: Entity, parent: Option<Relation>, visited: set<string>)
    requires Valid(c) && current.name in c.entities
    requires current.name !in visited
    requires c.relationNoThrow(current, "children").Some?
    requires c.entity(c.relationNoThrow(current, "children").value.entityName).Ok?
    ensures var children := c.relationNoThrow(current, "children");
            var next := c.entity(children.value.entityName).value;
            && next.name in c.entities
            && var rest := Walk(c, next, children, visited + {current.name});
               Walk(c, current, parent, visited) == Walked([Step(current, parent)] + rest.steps, rest.error)
  {
  }

  /** The walk still ahead of the `while` loop: nothing once there is no current entity. */
  function Ahead(c: ModelCache, current: Option<Entity>, parent: Option<Relation>, visited: set<string>): Walked
    requires Valid(c) && (current.Some? ==> current.value.name in c.entities)
  {
    if current.None? then Walked([], None) else Walk(c, current.value, parent, visited)
  }

  /** The walk from the entity derived from `AoTest`, once that lookup has not raised. */
  function WalkFromTest(c: ModelCache): Walked
    requires Valid(c) && c.entityByBaseName("AoTest").Ok?
  {
    Ahead(c, c.entityByBaseName("AoTest").value, None, {})
  }

  /** The response of `schema_test_to_measurement_hierarchy`; `None` is a cache that is not loaded. */
  function Hierarchy(cache: Option<ModelCache>): HierarchyResponse
    requires cache.Some? ==> Valid(cache.value)
  {
    if cache.None? then HierarchyNotLoaded
    else match cache.value.entityByBaseName("AoTest")
      case Err(e) => HierarchyFailed(e, [])
      case Ok(start) =>
        var w := WalkFromTest(cache.value);
        var chain := MapSeq(w.steps, EntryOfStep);
        if w.error.None? then HierarchyOk(chain, |chain|) else HierarchyFailed(w.error.value, chain)
  }

  // ---------------------------------------------------------------- properties of the walk

  /** `b` is the entity the `children` relation of `a`'s entity leads to, reached through that relation. */
  predicate Linked(c: ModelCache, a: Step, b: Step) {
    var link := c.relationNoThrow(a.entity, "children");
    && link.Some?
    && c.entity(link.value.entityName) == Ok(b.entity)
    && b.parent == link
  }

  /**
   * The first step is `current` reached through `parent`; every later one
   * is the entity the `children` relation of the one before leads to.
   */
  lemma {:induction false} WalkLinks(c: ModelCache, current: Entity, parent: Option<Relation>, visited: set<string>)
    requires Valid(c) && current.name in c.entities
    ensures var w := Walk(c, current, parent, visited);
            && (w.steps != [] ==> w.steps[0] == Step(current, parent))
            && (forall i :: 0 < i < |w.steps| ==> Linked(c, w.steps[i - 1], w.steps[i]))
    decreases c.entities.Keys - visited
  {
    if current.name !in visited {
      var children := c.relationNoThrow(current, "children");
      if children.Some? && c.entity(children.value.entityName).Ok? {
        var next := c.entity(children.value.entityName).value;
        WalkLinks(c, next, children, visited + {current.name});
        var rest := Walk(c, next, children, visited + {current.name});
        WalkNext(c, current, parent, visited);
        var w := Walk(c, current, parent, visited);
        assert c.entity(children.value.entityName) == Ok(next);
        forall i | 0 < i < |w.steps| ensures Linked(c, w.steps[i - 1], w.steps[i]) {
          assert w.steps[i] == rest.steps[i - 1];
          if i > 1 {
            assert w.steps[i - 1] == rest.steps[i - 2];
          }
        }
      }
    }
  }

  /** The entities of `steps` are entities of the model, none of them in `visited`, no two alike. */
  predicate ListedOnce(c: ModelCache, steps: seq<Step>, visited: set<string>) {
    && (forall i :: 0 <= i < |steps| ==> steps[i].entity.name in c.entities && steps[i].entity.name !in visited)
    && (forall i, j :: 0 <= i < j < |steps| ==> steps[i].entity.name != steps[j].entity.name)
  }

  lemma {:induction false} ListedOnceCons(c: ModelCache, s: Step, rest: seq<Step>, visited: set<string>)
    requires s.entity.name in c.entities && s.entity.name !in visited
    requires ListedOnce(c, rest, visited + {s.entity.name})
    ensures ListedOnce(c, [s] + rest, visited)
  {
    var w := [s] + rest;
    assert forall i :: 0 < i < |w| ==> w[i] == rest[i - 1];
  }

  /**
   * No entity is listed twice or was visited before, every one belongs to
   * the model, and so the walk is no longer than the unvisited entities.
   */
  lemma {:induction false} WalkVisitsOnce(c: ModelCache, current: Entity, parent: Option<Relation>, visited: set<string>)
    requires Valid(c) && current.name in c.entities
    ensures ListedOnce(c, Walk(c, current, parent, visited).steps, visited)
    ensures |Walk(c, current, parent, visited).steps| <= |c.entities.Keys - visited|
    decreases c.entities.Keys - visited
  {
    if current.name !in visited {
      var children := c.relationNoThrow(current, "children");
      Shrinks(c.entities.Keys, visited, current.name);
      if children.Some? && c.entity(children.value.entityName).Ok? {
        var next := c.entity(children.value.entityName).value;
        WalkVisitsOnce(c, next, children, visited + {current.name});
        WalkNext(c, current, parent, visited);
        ListedOnceCons(c, Step(current, parent), Walk(c, next, children, visited + {current.name}).steps, visited);
      }
    }
  }

  /** The `children` relation of `last`'s entity leads nowhere new: there is none, or its entity was listed. */
  predicate EndsQuietly(c: ModelCache, last: Step, visited: set<string>, steps: seq<Step>) {
    var link := c.relationNoThrow(last.entity, "children");
    || link.None?
    || (&& c.entity(link.value.entityName).Ok?
        && var child := c.entity(link.value.entityName).value.name;
           child in visited || exists i :: 0 <= i < |steps| && steps[i].entity.name == child)
  }

  /** Looking up the entity the `children` relation of `last`'s entity leads to raises `e`. */
  predicate FailsAt(c: ModelCache, last: Step, e: PyError) {
    var link := c.relationNoThrow(last.entity, "children");
    link.Some? && c.entity(link.value.entityName) == Err(e)
  }

  lemma {:induction false} EndsQuietlyCons(c: ModelCache, s: Step, rest: seq<Step>, visited: set<string>)
    requires rest == [] ==> EndsQuietly(c, s, visited + {s.entity.name}, [])
    requires rest != [] ==> EndsQuietly(c, rest[|rest| - 1], visited + {s.entity.name}, rest)
    ensures EndsQuietly(c, ([s] + rest)[|rest|], visited, [s] + rest)
  {
    var w := [s] + rest;
    assert w[0] == s;
    assert forall i :: 0 <= i < |rest| ==> w[i + 1] == rest[i];
  }

  /** A walk lists nothing exactly when it starts at a visited entity. */
  lemma {:induction false} WalkEmpty(c: ModelCache, current: Entity, parent: Option<Relation>, visited: set<string>)
    requires Valid(c) && current.name in c.entities
    ensures Walk(c, current, parent, visited).steps == [] <==> current.name in visited
    ensures current.name in visited ==> Walk(c, current, parent, visited).error == None
  {
  }

  /**
   * The last pass of the loop: the entity has no `children` relation, or
   * the lookup of the entity it leads to raises.
   */
  lemma {:induction false} WalkLast(c: ModelCache, current: Entity, parent: Option<Relation>, visited: set<string>)
    requires Valid(c) && current.name in c.entities
    requires current.name !in visited
    ensures var children := c.relationNoThrow(current, "children");
            children.None? ==> Walk(c, current, parent, visited) == Walked([Step(current, parent)], None)
    ensures var children := c.relationNoThrow(current, "children");
            children.Some? && c.entity(children.value.entityName).Err? ==>
              Walk(c, current, parent, visited) ==
              Walked([Step(current, parent)], Some(c.entity(children.value.entityName).error))
  {
  }

  lemma {:induction false} MapSeqAppend<A, B>(s: seq<A>, x: A, f: A -> B)
    ensures MapSeq(s + [x], f) == MapSeq(s, f) + [f(x)]
  {
    assert forall i :: 0 <= i < |s| ==> (s + [x])[i] == s[i];
  }

  /**
   * A walk that ends without an exception ends at an entity with no
   * `children` relation, or whose child was listed already.
   */
  lemma {:induction false} WalkStops(c: ModelCache, current: Entity, parent: Option<Relation>, visited: set<string>)
    requires Valid(c) && current.name in c.entities
    ensures var w := Walk(c, current, parent, visited);
            w.steps != [] && w.error.None? ==> EndsQuietly(c, w.steps[|w.steps| - 1], visited, w.steps)
    decreases c.entities.Keys - visited
  {
    if current.name !in visited {
      var children := c.relationNoThrow(current, "children");
      if children.Some? && c.entity(children.value.entityName).Ok? {
        var next := c.entity(children.value.entityName).value;
        WalkStops(c, next, children, visited + {current.name});
        WalkNext(c, current, parent, visited);
        WalkEmpty(c, next, children, visited + {current.name});
        var rest := Walk(c, next, children, visited + {current.name});
        if rest.error.None? {
          EndsQuietlyCons(c, Step(current, parent), rest.steps, visited);
        }
      }
    }
  }

  /** A walk that ends with an exception ends at the lookup of the last entity's child. */
  lemma {:induction false} WalkFails(c: ModelCache, current: Entity, parent: Option<Relation>, visited: set<string>)
    requires Valid(c) && current.name in c.entities
    ensures var w := Walk(c, current, parent, visited);
            w.error.Some? ==> w.steps != [] && FailsAt(c, w.steps[|w.steps| - 1], w.error.value)
    decreases c.entities.Keys - visited
  {
    if current.name !in visited {
      var children := c.relationNoThrow(current, "children");
      if children.Some? && c.entity(children.value.entityName).Ok? {
        var next := c.entity(children.value.entityName).value;
        WalkFails(c, next, children, visited + {current.name});
        WalkNext(c, current, parent, visited);
      }
    }
  }

  /** Below the first level an entry names its parent relation and links to instance 4711 of the parent. */
  lemma {:induction false} EntryLinksParent(e: Entity, parent: Relation)
    ensures EntryOf(e, Some(parent)).parentRelation == Some(parent.inverseName)
    ensures e.name != "$attributes" && e.name != "$options" ==>
              Get(EntryOf(e, Some(parent)).queryExample, e.name) == Some(Object(Condition(Some(parent))))
              && Get(Condition(Some(parent)), parent.inverseName) == Some(Int(4711))
  {
    ConditionLinksParent(parent);
    if e.name != "$attributes" && e.name != "$options" {
      QueryExampleSelects(e.name, Some(parent));
    }
  }

  /**
   * The response lists the entries of the walk from the `AoTest` entity;
   * the depth is their number, at most the number of entities, and no
   * entity is listed twice.
   */
  lemma {:induction false} HierarchyChain(cache: Option<ModelCache>)
    requires cache.Some? ==> Valid(cache.value)
    ensures var r := Hierarchy(cache);
            && (cache.None? <==> r.HierarchyNotLoaded?)
            && (r.HierarchyOk? ==> r.depth == |r.chain| <= |cache.value.entities|)
            && (cache.Some? && cache.value.entityByBaseName("AoTest").Ok? ==>
                  var w := WalkFromTest(cache.value);
                  && r.chain == MapSeq(w.steps, EntryOfStep)
                  && ListedOnce(cache.value, w.steps, {})
                  && (forall i, j :: 0 <= i < j < |r.chain| ==> r.chain[i].name != r.chain[j].name))
  {
    if cache.Some? && cache.value.entityByBaseName("AoTest").Ok? {
      var c := cache.value;
      var start := c.entityByBaseName("AoTest").value;
      if start.Some? {
        WalkVisitsOnce(c, start.value, None, {});
        assert c.entities.Keys - {} == c.entities.Keys;
      }
    }
  }

  /**
   * The first entry has no parent relation, and each later one is the
   * entity the `children` relation of the one before leads to, with the
   * query example that links it to its parent.
   */
  lemma {:induction false} HierarchyLinks(cache: Option<ModelCache>)
    requires cache.Some? ==> Valid(cache.value)
    ensures var r := Hierarchy(cache);
            cache.Some? && cache.value.entityByBaseName("AoTest").Ok? ==>
              var w := WalkFromTest(cache.value);
              && (w.steps != [] ==> w.steps[0].parent == None && r.chain[0].parentRelation == None)
              && (forall i :: 0 < i < |w.steps| ==>
                    && Linked(cache.value, w.steps[i - 1], w.steps[i])
                    && r.chain[i] == EntryOf(w.steps[i].entity, w.steps[i].parent))
  {
    if cache.Some? && cache.value.entityByBaseName("AoTest").Ok? {
      var c := cache.value;
      var start := c.entityByBaseName("AoTest").value;
      if start.Some? {
        WalkLinks(c, start.value, None, {});
      }
    }
  }

  /**
   * A hierarchy without an exception ends where the `children` relation
   * leads nowhere new; a failed one carries the exception of the last
   * entity's child lookup, or of the `AoTest` lookup with an empty chain.
   */
  lemma {:induction false} HierarchyEnds(cache: Option<ModelCache>)
    requires cache.Some? ==> Valid(cache.value)
    ensures var r := Hierarchy(cache);
            && (r.HierarchyOk? && r.chain != [] ==>
                  var w := WalkFromTest(cache.value);
                  EndsQuietly(cache.value, w.steps[|w.steps| - 1], {}, w.steps))
            && (r.HierarchyFailed? ==>
                  || (cache.value.entityByBaseName("AoTest") == Err(r.error) && r.chain == [])
                  || (&& cache.value.entityByBaseName("AoTest").Ok?
                      && var w := WalkFromTest(cache.value);
                         w.steps != [] && FailsAt(cache.value, w.steps[|w.steps| - 1], r.error)))
  {
    if cache.Some? && cache.value.entityByBaseName("AoTest").Ok? {
      var c := cache.value;
      var start := c.entityByBaseName("AoTest").value;
      if start.Some? {
        WalkStops(c, start.value, None, {});
        WalkFails(c, start.value, None, {});
      }
    }
  }

  /** The whole walk, once `steps` are behind and `ahead` is still to come. */
  function After(steps: seq<Step>, ahead: Walked): Walked {
    Walked(steps + ahead.steps, ahead.error)
  }

  /**
   * One pass of the `while` loop keeps the walk still ahead in step with
   * the whole walk: the step taken joins those already listed, and the
   * walk ends, fails or goes on at the entity the `children` relation
   * leads to.
   */
  lemma {:induction false} LoopPass(c: ModelCache, whole: Walked, steps: seq<Step>, e: Entity, reachedBy: Option<Relation>, visited: set<string>)
    requires Valid(c) && e.name in c.entities && e.name !in visited
    requires whole == After(steps, Walk(c, e, reachedBy, visited))
    ensures var children := c.relationNoThrow(e, "children");
            var taken := steps + [Step(e, reachedBy)];
            && (children.None? ==> whole == Walked(taken, None))
            && (children.Some? && c.entity(children.value.entityName).Err? ==>
                  whole == Walked(taken, Some(c.entity(children.value.entityName).error)))
            && (children.Some? && c.entity(children.value.entityName).Ok? ==>
                  whole == After(taken, Ahead(c, Some(c.entity(children.value.entityName).value), children, visited + {e.name})))
  {
    var children := c.relationNoThrow(e, "children");
    if children.Some? && c.entity(children.value.entityName).Ok? {
      WalkNext(c, e, reachedBy, visited);
      var next := c.entity(children.value.entityName).value;
      var rest := Walk(c, next, children, visited + {e.name});
      assert steps + ([Step(e, reachedBy)] + rest.steps) == steps + [Step(e, reachedBy)] + rest.steps;
    } else {
      WalkLast(c, e, reachedBy, visited);
    }
  }

  /**
   * The `while` loop of `schema_test_to_measurement_hierarchy` from the
   * entity `start`, with `entry` building each entry: the entries of the
   * walk, and the exception that ended it.
   */
  method FollowChildren(c: ModelCache, start: Option<Entity>, entry: Step -> ChainEntry)
    returns (chain: seq<ChainEntry>, error: Option<PyError>)
    requires Valid(c) && (start.Some? ==> start.value.name in c.entities)
    ensures chain == MapSeq(Ahead(c, start, None, {}).steps, entry)
    ensures error == Ahead(c, start, None, {}).error
  {
    chain := [];
    var visited: set<string> := {};
    var current := start;
    var parent: Option<Relation> := None;
    ghost var whole := Ahead(c, start, None, {});
    ghost var steps: seq<Step> := [];
    while current.Some? && current.value.name !in visited
      invariant current.Some? ==> current.value.name in c.entities
      invariant whole == After(steps, Ahead(c, current, parent, visited))
      invariant chain == MapSeq(steps, entry)
      decreases c.entities.Keys - visited
    {
      var e := current.value;
      LoopPass(c, whole, steps, e, parent, visited);
      MapSeqAppend(steps, Step(e, parent), entry);
      visited := visited + {e.name};
      chain := chain + [entry(Step(e, parent))];
      steps := steps + [Step(e, parent)];
      parent := c.relationNoThrow(e, "children");
      if parent.Some? {
        var next := c.entity(parent.value.entityName);
        if next.Err? {
          return chain, Some(next.error);
        }
        current := Some(next.value);
      } else {
        break;
      }
    }
    if current.Some? {
      WalkEmpty(c, current.value, parent, visited);
    }
    return chain, None;
  }

  /** `SchemaInspector.schema_test_to_measurement_hierarchy` */
  method SchemaTestToMeasurementHierarchy(cache: Option<ModelCache>) returns (r: HierarchyResponse)
    requires cache.Some? ==> Valid(cache.value)
    ensures r == Hierarchy(cache)
  {
    if cache.None? {
      return HierarchyNotLoaded;
    }
    var c := cache.value;
    var found := c.entityByBaseName("AoTest");
    if found.Err? {
      return HierarchyFailed(found.error, []);
    }
    var chain, error := FollowChildren(c, found.value, EntryOfStep);
    if error.Some? {
      return HierarchyFailed(error.value, chain);
    }
    return HierarchyOk(chain, |chain|);
  }
}
