/**
 * `generate_datasets` (Synthetic-data-creator/create_datasets.py): the
 * order in which entities are generated and the two dicts it fills, the
 * primary-key lists by entity name and the datasets by entity name.
 *
 * Entities without a foreign-key column are generated first, in input
 * order, each without a key index; the others follow, in input order, each
 * with the key index built so far. `Run` is that fold over the planned
 * order for any dataset generator; `GenerateAll` uses `OneDataset`.
 */
module SyntheticPlanner {
  import opened Wrappers
  import opened Dicts
  import opened SyntheticSchema
  import opened SyntheticValues
  import opened SyntheticDataset

  /** The entities that have a foreign-key column (`dependent`) or have none, in input order. */
  function Group(es: seq<Entity>, dependent: bool): seq<Entity>
  {
    if es == [] then []
    else
      var init := Group(es[..|es| - 1], dependent);
      var e := es[|es| - 1];
      if HasForeignKey(e) == dependent then init + [e] else init
  }

  /** The order of generation: the first loop's entities, then the second's. */
  function Plan(es: seq<Entity>): seq<Entity>
  {
    Group(es, false) + Group(es, true)
  }

  /** Grouping splits over concatenation: each group keeps the input order. */
  lemma {:induction false} GroupAppend(a: seq<Entity>, b: seq<Entity>, dependent: bool)
    ensures Group(a + b, dependent) == Group(a, dependent) + Group(b, dependent)
    decreases |b|
  {
    if b == [] {
      assert a + b == a;
    } else {
      var init := b[..|b| - 1];
      GroupAppend(a, init, dependent);
      assert (a + b)[..|a + b| - 1] == a + init;
    }
  }

  /** One more input entity joins the end of its group. */
  lemma GroupStep(es: seq<Entity>, i: nat, dependent: bool)
    requires i < |es|
    ensures Group(es[..i + 1], dependent) ==
      if HasForeignKey(es[i]) == dependent then Group(es[..i], dependent) + [es[i]] else Group(es[..i], dependent)
  {
    assert es[..i + 1][..i] == es[..i];
  }

  /** The group of a list is the group of a prefix followed by the group of the rest. */
  lemma GroupSplit(es: seq<Entity>, k: nat, dependent: bool)
    requires k <= |es|
    ensures Group(es, dependent) == Group(es[..k], dependent) + Group(es[k..], dependent)
  {
    assert es == es[..k] + es[k..];
    GroupAppend(es[..k], es[k..], dependent);
  }

  /** Every entity of a group is of the group's kind. */
  lemma {:induction false} GroupKind(es: seq<Entity>, dependent: bool)
    ensures forall i :: 0 <= i < |Group(es, dependent)| ==> HasForeignKey(Group(es, dependent)[i]) == dependent
    decreases |es|
  {
    if es != [] {
      GroupKind(es[..|es| - 1], dependent);
    }
  }

  /** The two groups together hold the input's entities, each as often as in the input. */
  lemma {:induction false} GroupsPartition(es: seq<Entity>)
    ensures multiset(Group(es, false)) + multiset(Group(es, true)) == multiset(es)
    decreases |es|
  {
    if es != [] {
      var init := es[..|es| - 1];
      GroupsPartition(init);
      assert es == init + [es[|es| - 1]];
    }
  }

  /** Every entity is generated exactly once, every entity without a foreign key before every entity with one. */
  lemma PlanShape(es: seq<Entity>)
    ensures multiset(Plan(es)) == multiset(es)
    ensures forall i :: 0 <= i < |Plan(es)| ==> (HasForeignKey(Plan(es)[i]) <==> i >= |Group(es, false)|)
  {
    GroupKind(es, false);
    GroupKind(es, true);
    GroupsPartition(es);
    var p := Plan(es);
    var n := |Group(es, false)|;
    forall i | 0 <= i < |p| ensures HasForeignKey(p[i]) <==> i >= n {
      if i < n {
        assert p[i] == Group(es, false)[i];
      } else {
        assert p[i] == Group(es, true)[i - n];
      }
    }
  }

  /** Both dicts after some entities: primary-key lists and datasets, by entity name. */
  datatype Generated = Generated(keys: KeyIndex, datasets: Dict<Dataset>)

  /**
   * The key index an entity is generated with: none in the first loop (the
   * default `None`, never read for an entity without a foreign key), the one
   * built so far in the second.
   */
  function IndexFor(e: Entity, keys: KeyIndex): KeyIndex
  {
    if HasForeignKey(e) then keys else []
  }

  /** `dict_primary_keys_by_entity[name] = ...; dict_generated_dataset[name] = df`. */
  function Record(g: Generated, e: Entity, d: Dataset): Generated
  {
    Generated(Put(g.keys, e.name, d.primaryKeys), Put(g.datasets, e.name, d))
  }

  /** Generates the planned entities in order, stopping at the first exception. */
  function Run(plan: seq<Entity>, gen: (Entity, KeyIndex) -> Result<Dataset, GenError>): Result<Generated, GenError>
  {
    if plan == [] then Ok(Generated([], []))
    else
      match Run(plan[..|plan| - 1], gen)
      case Err(err) => Err(err)
      case Ok(g) =>
        var e := plan[|plan| - 1];
        match gen(e, IndexFor(e, g.keys))
        case Err(err) => Err(err)
        case Ok(d) => Ok(Record(g, e, d))
  }

  /** `generate_one_dataset` as the generator. */
  function Generator(ch: Chance): (Entity, KeyIndex) -> Result<Dataset, GenError>
  {
    (e: Entity, index: KeyIndex) => OneDataset(e, index, ch)
  }

  /** `generate_datasets(instruction)` before its output is rendered. */
  function GenerateAll(es: seq<Entity>, ch: Chance): Result<Generated, GenError>
  {
    Run(Plan(es), Generator(ch))
  }

  /** The names of the entities, in order. */
  function EntityNames(es: seq<Entity>): seq<string>
  {
    seq(|es|, i requires 0 <= i < |es| => es[i].name)
  }

  lemma EntityNamesSnoc(es: seq<Entity>, e: Entity)
    ensures EntityNames(es + [e]) == EntityNames(es) + [e.name]
  {
  }

  /** One more entity: generated with the index so far, then recorded. */
  lemma RunStep(plan: seq<Entity>, e: Entity, gen: (Entity, KeyIndex) -> Result<Dataset, GenError>)
    ensures Run(plan + [e], gen) ==
      match Run(plan, gen)
      case Err(err) => Err(err)
      case Ok(g) =>
        match gen(e, IndexFor(e, g.keys))
        case Err(err) => Err(err)
        case Ok(d) => Ok(Record(g, e, d))
  {
    assert (plan + [e])[..|plan|] == plan;
  }

  /** `RunStep` for an entity appended to a list that follows a given start. */
  lemma RunStepAfter(p: seq<Entity>, a: seq<Entity>, e: Entity, gen: (Entity, KeyIndex) -> Result<Dataset, GenError>)
    ensures Run(p + (a + [e]), gen) ==
      match Run(p + a, gen)
      case Err(err) => Err(err)
      case Ok(g) =>
        match gen(e, IndexFor(e, g.keys))
        case Err(err) => Err(err)
        case Ok(d) => Ok(Record(g, e, d))
  {
    assert p + (a + [e]) == (p + a) + [e];
    RunStep(p + a, e, gen);
  }

  /** Once an entity fails, nothing after it is generated and its exception is the result. */
  lemma {:induction false} RunSticky(a: seq<Entity>, b: seq<Entity>, gen: (Entity, KeyIndex) -> Result<Dataset, GenError>)
    requires Run(a, gen).Err?
    ensures Run(a + b, gen) == Run(a, gen)
    decreases |b|
  {
    if b == [] {
      assert a + b == a;
    } else {
      var init := b[..|b| - 1];
      RunSticky(a, init, gen);
      assert a + b == (a + init) + [b[|b| - 1]];
      RunStep(a + init, b[|b| - 1], gen);
    }
  }

  /** `RunSticky` for a failure after a given start. */
  lemma RunStickyAfter(p: seq<Entity>, a: seq<Entity>, b: seq<Entity>, gen: (Entity, KeyIndex) -> Result<Dataset, GenError>)
    requires Run(p + a, gen).Err?
    ensures Run(p + (a + b), gen) == Run(p + a, gen)
  {
    assert p + (a + b) == (p + a) + b;
    RunSticky(p + a, b, gen);
  }

  /** The generation that succeeds up to some point succeeded up to every earlier point. */
  lemma {:induction false} RunPrefixOk(plan: seq<Entity>, k: nat, gen: (Entity, KeyIndex) -> Result<Dataset, GenError>)
    requires k <= |plan| && Run(plan, gen).Ok?
    ensures Run(plan[..k], gen).Ok?
  {
    if Run(plan[..k], gen).Err? {
      RunSticky(plan[..k], plan[k..], gen);
      assert plan[..k] + plan[k..] == plan;
    }
  }

  /** Both dicts have one key per distinct entity name, in the order the names were first generated. */
  lemma {:induction false} RunKeys(plan: seq<Entity>, gen: (Entity, KeyIndex) -> Result<Dataset, GenError>)
    requires Run(plan, gen).Ok?
    ensures Keys(Run(plan, gen).value.datasets) == Dedup(EntityNames(plan))
    ensures Keys(Run(plan, gen).value.keys) == Dedup(EntityNames(plan))
    ensures UniqueKeys(Run(plan, gen).value.datasets) && UniqueKeys(Run(plan, gen).value.keys)
    decreases |plan|
  {
    if plan != [] {
      var init := plan[..|plan| - 1];
      var e := plan[|plan| - 1];
      assert plan == init + [e];
      RunStep(init, e, gen);
      RunKeys(init, gen);
      var g := Run(init, gen).value;
      var d := gen(e, IndexFor(e, g.keys)).value;
      PutKeys(g.keys, e.name, d.primaryKeys);
      PutKeys(g.datasets, e.name, d);
      EntityNamesSnoc(init, e);
    }
  }

  /** The key index holds, under each entity name, the primary-key lists of the dataset kept under it. */
  lemma {:induction false} RunMirror(plan: seq<Entity>, gen: (Entity, KeyIndex) -> Result<Dataset, GenError>, n: string)
    requires Run(plan, gen).Ok?
    ensures Get(Run(plan, gen).value.keys, n) ==
      if Get(Run(plan, gen).value.datasets, n).Some? then Some(Get(Run(plan, gen).value.datasets, n).value.primaryKeys) else None
    decreases |plan|
  {
    if plan != [] {
      var init := plan[..|plan| - 1];
      var e := plan[|plan| - 1];
      assert plan == init + [e];
      RunStep(init, e, gen);
      RunMirror(init, gen, n);
      var g := Run(init, gen).value;
      var d := gen(e, IndexFor(e, g.keys)).value;
      PutGet(g.keys, e.name, d.primaryKeys, n);
      PutGet(g.datasets, e.name, d, n);
    }
  }

  /**
   * The dataset kept under a name is the one generated for the last entity
   * of that name, with the key index built before it.
   */
  lemma {:induction false} RunRecords(plan: seq<Entity>, i: nat, gen: (Entity, KeyIndex) -> Result<Dataset, GenError>)
    requires i < |plan| && Run(plan, gen).Ok?
    requires forall j :: i < j < |plan| ==> plan[j].name != plan[i].name
    ensures Run(plan[..i], gen).Ok?
    ensures gen(plan[i], IndexFor(plan[i], Run(plan[..i], gen).value.keys)).Ok?
    ensures Get(Run(plan, gen).value.datasets, plan[i].name) ==
      Some(gen(plan[i], IndexFor(plan[i], Run(plan[..i], gen).value.keys)).value)
    decreases |plan|
  {
    var init := plan[..|plan| - 1];
    var e := plan[|plan| - 1];
    assert plan == init + [e];
    RunStep(init, e, gen);
    var g := Run(init, gen).value;
    var d := gen(e, IndexFor(e, g.keys)).value;
    PutGet(g.datasets, e.name, d, plan[i].name);
    if i < |plan| - 1 {
      assert init[..i] == plan[..i];
      RunRecords(init, i, gen);
    }
  }

  /** With distinct entity names, every entity's generated dataset is kept under its name. */
  lemma AllRecorded(es: seq<Entity>, ch: Chance, i: nat)
    requires GenerateAll(es, ch).Ok? && Distinct(EntityNames(Plan(es)))
    requires i < |Plan(es)|
    ensures Run(Plan(es)[..i], Generator(ch)).Ok?
    ensures OneDataset(Plan(es)[i], IndexFor(Plan(es)[i], Run(Plan(es)[..i], Generator(ch)).value.keys), ch).Ok?
    ensures Get(GenerateAll(es, ch).value.datasets, Plan(es)[i].name) ==
      Some(OneDataset(Plan(es)[i], IndexFor(Plan(es)[i], Run(Plan(es)[..i], Generator(ch)).value.keys), ch).value)
  {
    var p := Plan(es);
    forall j | i < j < |p| ensures p[j].name != p[i].name {
      assert EntityNames(p)[i] == p[i].name && EntityNames(p)[j] == p[j].name;
    }
    RunRecords(p, i, Generator(ch));
  }

  /**
   * With distinct entity names, the key index holds for every entity the
   * primary-key dict its own generation recorded: `list(range(count))` for
   * each primary-key column.
   */
  lemma RecordedKeys(es: seq<Entity>, ch: Chance, i: nat)
    requires GenerateAll(es, ch).Ok? && Distinct(EntityNames(Plan(es)))
    requires i < |Plan(es)|
    ensures Get(GenerateAll(es, ch).value.keys, Plan(es)[i].name) ==
      Some(PrimaryKeyDict(Plan(es)[i].columns, Range(Plan(es)[i].count)))
  {
    AllRecorded(es, ch, i);
    RunMirror(Plan(es), Generator(ch), Plan(es)[i].name);
  }

  /** A name is planned exactly when some input entity has it. */
  lemma NameInPlan(es: seq<Entity>, n: string)
    ensures n in EntityNames(Plan(es)) <==> exists e :: e in es && e.name == n
  {
    var p := Plan(es);
    GroupsPartition(es);
    assert multiset(p) == multiset(es);
    if n in EntityNames(p) {
      var i :| 0 <= i < |p| && EntityNames(p)[i] == n;
      assert p[i] in multiset(es);
    }
    if exists e :: e in es && e.name == n {
      var e :| e in es && e.name == n;
      assert e in multiset(p);
      var i :| 0 <= i < |p| && p[i] == e;
      assert EntityNames(p)[i] == n;
    }
  }

  /** After a successful generation, a name is a key of both dicts exactly when some entity has it. */
  lemma ResultKeys(es: seq<Entity>, ch: Chance, n: string)
    requires GenerateAll(es, ch).Ok?
    ensures n in Keys(GenerateAll(es, ch).value.datasets) <==> exists e :: e in es && e.name == n
    ensures n in Keys(GenerateAll(es, ch).value.keys) <==> exists e :: e in es && e.name == n
  {
    RunKeys(Plan(es), Generator(ch));
    DedupMembers(EntityNames(Plan(es)), n);
    NameInPlan(es, n);
  }


  /**
   * When an entity with a foreign key is generated, every entity without one
   * has been generated and is in its key index.
   */
  lemma DependentsSeeAllPrimaries(es: seq<Entity>, ch: Chance, i: nat, e: Entity)
    requires |Group(es, false)| <= i < |Plan(es)|
    requires Run(Plan(es)[..i], Generator(ch)).Ok?
    requires e in Group(es, false)
    ensures HasForeignKey(Plan(es)[i])
    ensures e.name in Keys(IndexFor(Plan(es)[i], Run(Plan(es)[..i], Generator(ch)).value.keys))
  {
    var p := Plan(es);
    PlanShape(es);
    RunKeys(p[..i], Generator(ch));
    DedupMembers(EntityNames(p[..i]), e.name);
    var k :| 0 <= k < |Group(es, false)| && Group(es, false)[k] == e;
    assert p[..i][k] == e;
    assert EntityNames(p[..i])[k] == e.name;
  }

  /**
   * A foreign key referring to an entity that is not generated before its own
   * (for example one that has foreign keys itself and comes later) fails
   * with the missing-entity exception.
   */
  lemma ForwardReferenceFails(es: seq<Entity>, ch: Chance, i: nat, c: Column, entity: string, column: string)
    requires i < |Plan(es)| && Run(Plan(es)[..i], Generator(ch)).Ok?
    requires c.references == Some(entity + "." + column)
    requires DotCount(entity) == 0 && DotCount(column) == 0
    requires forall j :: 0 <= j < i ==> Plan(es)[j].name != entity
    ensures ReferencedKeys(c, IndexFor(Plan(es)[i], Run(Plan(es)[..i], Generator(ch)).value.keys)) == Err(UnknownEntity)
  {
    var p := Plan(es)[..i];
    var keys := Run(p, Generator(ch)).value.keys;
    RunKeys(p, Generator(ch));
    DedupMembers(EntityNames(p), entity);
    if HasForeignKey(Plan(es)[i]) {
      ReferencedKeysCases(c, keys, entity, column);
    } else {
      ReferencedKeysCases(c, [], entity, column);
    }
  }

  /** A failure in the first loop ends the whole generation with its exception. */
  lemma FirstLoopFails(es: seq<Entity>, i: nat, gen: (Entity, KeyIndex) -> Result<Dataset, GenError>)
    requires i < |es| && Run(Group(es[..i + 1], false), gen).Err?
    ensures Run(Plan(es), gen) == Run(Group(es[..i + 1], false), gen)
  {
    var a := Group(es[..i + 1], false);
    var b := Group(es[i + 1..], false) + Group(es, true);
    assert Plan(es) == a + b by {
      GroupSplit(es, i + 1, false);
    }
    RunSticky(a, b, gen);
  }

  /** A failure in the second loop ends the whole generation with its exception. */
  lemma SecondLoopFails(es: seq<Entity>, i: nat, gen: (Entity, KeyIndex) -> Result<Dataset, GenError>)
    requires i < |es| && Run(Group(es, false) + Group(es[..i + 1], true), gen).Err?
    ensures Run(Plan(es), gen) == Run(Group(es, false) + Group(es[..i + 1], true), gen)
  {
    GroupSplit(es, i + 1, true);
    RunStickyAfter(Group(es, false), Group(es[..i + 1], true), Group(es[i + 1..], true), gen);
  }

  /** The two loops' states meet: the first ends where the second starts, and the second ends at the plan. */
  lemma LoopsMeet(es: seq<Entity>)
    ensures Group(es[..|es|], false) == Group(es, false)
    ensures Group(es, false) + Group(es[..0], true) == Group(es, false)
    ensures Group(es, false) + Group(es[..|es|], true) == Plan(es)
  {
    assert es[..|es|] == es;
    assert Group(es[..0], true) == [];
  }

  /** One iteration of the first loop (create_datasets.py, lines 57-62), as a step of `Run`. */
  lemma FirstLoopStep(es: seq<Entity>, i: nat, gen: (Entity, KeyIndex) -> Result<Dataset, GenError>, g: Generated)
    requires i < |es| && Run(Group(es[..i], false), gen) == Ok(g)
    ensures HasForeignKey(es[i]) ==> Run(Group(es[..i + 1], false), gen) == Ok(g)
    ensures !HasForeignKey(es[i]) && gen(es[i], []).Err? ==> Run(Plan(es), gen) == Err(gen(es[i], []).error)
    ensures !HasForeignKey(es[i]) && gen(es[i], []).Ok? ==>
      Run(Group(es[..i + 1], false), gen) == Ok(Record(g, es[i], gen(es[i], []).value))
  {
    GroupStep(es, i, false);
    if !HasForeignKey(es[i]) {
      RunStep(Group(es[..i], false), es[i], gen);
      if gen(es[i], []).Err? {
        FirstLoopFails(es, i, gen);
      }
    }
  }

  /** One iteration of the second loop (create_datasets.py, lines 64-71), as a step of `Run`. */
  lemma SecondLoopStep(es: seq<Entity>, i: nat, gen: (Entity, KeyIndex) -> Result<Dataset, GenError>, g: Generated)
    requires i < |es| && Run(Group(es, false) + Group(es[..i], true), gen) == Ok(g)
    ensures !HasForeignKey(es[i]) ==> Run(Group(es, false) + Group(es[..i + 1], true), gen) == Ok(g)
    ensures HasForeignKey(es[i]) && gen(es[i], g.keys).Err? ==> Run(Plan(es), gen) == Err(gen(es[i], g.keys).error)
    ensures HasForeignKey(es[i]) && gen(es[i], g.keys).Ok? ==>
      Run(Group(es, false) + Group(es[..i + 1], true), gen) == Ok(Record(g, es[i], gen(es[i], g.keys).value))
  {
    GroupStep(es, i, true);
    if HasForeignKey(es[i]) {
      RunStepAfter(Group(es, false), Group(es[..i], true), es[i], gen);
      if gen(es[i], g.keys).Err? {
        SecondLoopFails(es, i, gen);
      }
    }
  }

  /** create_datasets.py lines 52-71: the two loops over the entities, filling both dicts in place. */
  method GenerateDatasets(es: seq<Entity>, ch: Chance) returns (r: Result<Generated, GenError>)
    ensures r == GenerateAll(es, ch)
  {
    ghost var gen := Generator(ch);
    LoopsMeet(es);
    var keys: KeyIndex := [];
    var datasets: Dict<Dataset> := [];
    for i := 0 to |es|
      invariant Run(Group(es[..i], false), gen) == Ok(Generated(keys, datasets))
    {
      var e := es[i];
      FirstLoopStep(es, i, gen, Generated(keys, datasets));
      if !HasForeignKey(e) {
        var d := GenerateOneDataset(e, [], ch);
        assert d == gen(e, []);
        if d.Err? {
          return Err(d.error);
        }
        keys := Put(keys, e.name, d.value.primaryKeys);
        datasets := Put(datasets, e.name, d.value);
      }
    }
    for i := 0 to |es|
      invariant Run(Group(es, false) + Group(es[..i], true), gen) == Ok(Generated(keys, datasets))
    {
      var e := es[i];
      SecondLoopStep(es, i, gen, Generated(keys, datasets));
      if HasForeignKey(e) {
        var d := GenerateOneDataset(e, keys, ch);
        assert d == gen(e, keys);
        if d.Err? {
          return Err(d.error);
        }
        keys := Put(keys, e.name, d.value.primaryKeys);
        datasets := Put(datasets, e.name, d.value);
      }
    }
    return Ok(Generated(keys, datasets));
  }
}
