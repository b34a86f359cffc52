/**
 The deep merge of pkg/config/config.go as the program runs it: tables are shared by reference,
 deepMerge writes into the destination table and links the source's own sub-tables into it.
 */
module ConfigTables {
  import opened Wrappers
  import opened ConfigMerge

  datatype Cell = Scalar(text: string) | Nested(table: TableObject)

  type Tables = set<TableObject>

  class TableObject {
    var entries: map<string, Cell>
    ghost var repr: Tables

    /** A finite tree of tables without sharing; `repr` has all of its tables. */
    ghost predicate Valid()
      reads this, repr
      decreases repr
    {
      && this in repr
      && (forall k :: k in entries && entries[k].Nested? ==>
            var t := entries[k].table;
            t in repr && t.repr <= repr && this !in t.repr && t.Valid())
      && (forall i, j :: i in entries && j in entries && i != j && entries[i].Nested? && entries[j].Nested? ==>
            entries[i].table.repr !! entries[j].table.repr)
    }

    /** The configuration value that the table stands for. */
    ghost function Contents(): Tree
      requires Valid()
      reads this, repr
      decreases repr
    {
      map k | k in entries :: CellValue(k)
    }

    ghost function CellValue(k: string): Value
      requires Valid() && k in entries
      reads this, repr
      decreases repr, 0
    {
      match entries[k]
      case Scalar(text) => Leaf(text)
      case Nested(t) => Table(t.Contents())
    }

    /** The tables below each entry. */
    ghost function Regions(): map<string, Tables>
      requires Valid()
      reads this, repr
    {
      map k | k in entries :: match entries[k] case Scalar(_) => {} case Nested(t) => t.repr
    }

    constructor ()
      ensures Valid() && repr == {this} && Contents() == map[]
    {
      entries := map[];
      repr := {this};
    }
  }

  /** The cell stands for the value, and all of its tables are in the bound. */
  ghost predicate Holds(cell: Cell, bound: Tables, value: Value)
    reads bound
  {
    match cell
    case Scalar(text) => value == Leaf(text)
    case Nested(t) => t in bound && t.repr <= bound && t.Valid() && value == Table(t.Contents())
  }

  /** Every key has a region of its own, and the table itself is in none of them. */
  ghost predicate Apart(t: TableObject, region: map<string, Tables>) {
    && (forall k :: k in region ==> t !in region[k])
    && (forall i, j :: i in region && j in region && i != j ==> region[i] !! region[j])
  }

  lemma CellsOf(t: TableObject)
    requires t.Valid()
    ensures t in t.repr && t.Contents().Keys == t.Regions().Keys == t.entries.Keys
    ensures Apart(t, t.Regions())
    ensures forall k :: k in t.entries ==> t.Regions()[k] <= t.repr && Holds(t.entries[k], t.Regions()[k], t.Contents()[k])
  {
    assert forall k :: k in t.entries ==> t.Contents()[k] == t.CellValue(k);
  }

  /** A table whose cells lie in regions of their own is a tree, and its cells say what it stands for. */
  lemma FromCells(t: TableObject, region: map<string, Tables>, tree: Tree)
    requires Apart(t, region) && t in t.repr && t.entries.Keys == tree.Keys <= region.Keys
    requires forall k :: k in tree ==> region[k] <= t.repr && Holds(t.entries[k], region[k], tree[k])
    ensures t.Valid() && t.Contents() == tree
  {
    assert t.Valid() by {
      assert forall k :: k in t.entries && t.entries[k].Nested? ==> t.entries[k].table.repr <= region[k];
    }
    assert forall k :: k in t.entries ==> t.Contents()[k] == t.CellValue(k);
  }

  function MergedValue(dst: Option<Value>, src: Value): Value {
    if dst.Some? && dst.value.Table? && src.Table? then Table(Merge(dst.value.entries, src.entries)) else src
  }

  function Get(t: Tree, k: string): Option<Value> {
    if k in t then Some(t[k]) else None
  }

  lemma MergeAt(dst: Tree, src: Tree)
    ensures Merge(dst, src).Keys == dst.Keys + src.Keys
    ensures forall k :: k in src ==> Merge(dst, src)[k] == MergedValue(Get(dst, k), src[k])
    ensures forall k :: k in dst && k !in src ==> Merge(dst, src)[k] == dst[k]
  {
  }

  /** What the loop does for one key of the source, which has `value` there; the destination has `have`. */
  method MergeKey(dst: TableObject, key: string, srcVal: Cell, ghost bound: Tables, ghost srcBound: Tables,
                  ghost have: Option<Value>, ghost value: Value)
    requires bound !! srcBound && dst !in bound + srcBound
    requires have.Some? <==> key in dst.entries
    requires have.Some? ==> Holds(dst.entries[key], bound, have.value)
    requires Holds(srcVal, srcBound, value)
    modifies dst`entries, bound
    ensures dst.entries.Keys == old(dst.entries.Keys) + {key}
    ensures forall k :: k in old(dst.entries) && k != key ==> dst.entries[k] == old(dst.entries)[k]
    ensures Holds(dst.entries[key], bound + srcBound, MergedValue(have, value))
    decreases srcBound, 3
  {
    if key in dst.entries {
      var dstVal := dst.entries[key];
      if dstVal.Nested? && srcVal.Nested? {
        DeepMerge(dstVal.table, srcVal.table);
        return;
      }
    }
    dst.entries := dst.entries[key := srcVal];
  }

  function At(regions: map<string, Tables>, k: string): Tables {
    if k in regions then regions[k] else {}
  }

  /** The regions of the two tables, key by key. */
  function Joined(dst: map<string, Tables>, src: map<string, Tables>): map<string, Tables> {
    map k | k in dst.Keys + src.Keys :: At(dst, k) + At(src, k)
  }

  lemma JoinedApart(t: TableObject, u: TableObject, dst: map<string, Tables>, src: map<string, Tables>, dstTables: Tables, srcTables: Tables)
    requires Apart(t, dst) && Apart(u, src) && t !in srcTables && dstTables !! srcTables
    requires forall k :: k in dst ==> dst[k] <= dstTables
    requires forall k :: k in src ==> src[k] <= srcTables
    ensures Apart(t, Joined(dst, src)) && (forall k :: k in Joined(dst, src) ==> t !in Joined(dst, src)[k]) && Joined(dst, src).Keys == dst.Keys + src.Keys
    ensures forall k :: k in Joined(dst, src) ==>
              Joined(dst, src)[k] == At(dst, k) + At(src, k) <= dstTables + srcTables
              && At(dst, k) !! At(src, k) && (k !in src ==> Joined(dst, src)[k] == dst[k])
  {
    var region := Joined(dst, src);
    forall k | k in region
      ensures At(dst, k) <= dstTables && At(src, k) <= srcTables && t !in At(dst, k) && region[k] == At(dst, k) + At(src, k)
    {
    }
    forall i, j | i in region && j in region && i != j
      ensures region[i] !! region[j]
    {
      assert At(dst, i) !! At(dst, j) && At(src, i) !! At(src, j);
    }
  }

  /** Bookkeeping once the loop is done: `dst` now has the tables of both. */
  ghost method Absorb(dst: TableObject, tables: Tables, region: map<string, Tables>, tree: Tree)
    requires Apart(dst, region) && dst in tables && dst.entries.Keys == tree.Keys <= region.Keys
    requires forall k :: k in tree ==> region[k] <= tables && Holds(dst.entries[k], region[k], tree[k])
    modifies dst`repr
    ensures dst.repr == tables && dst.Valid() && dst.Contents() == tree
  {
    hide TableObject.Valid, TableObject.Contents, Holds;
    dst.repr := tables;
    FromCells(dst, region, tree);
  }

  /** The cells of these keys stand for the values, each within its own region. */
  ghost predicate Stands(cells: map<string, Cell>, keys: set<string>, region: map<string, Tables>, values: Tree, tables: Tables)
    reads tables
  {
    forall k :: k in keys ==>
      k in cells && k in region && k in values && region[k] <= tables && Holds(cells[k], region[k], values[k])
  }

  lemma StandsAt(cells: map<string, Cell>, keys: set<string>, region: map<string, Tables>, values: Tree, tables: Tables, key: string)
    requires Stands(cells, keys, region, values, tables) && key in keys
    ensures key in cells && key in region && key in values && Holds(cells[key], region[key], values[key])
  {
  }

  lemma StandsWith(cells: map<string, Cell>, keys: set<string>, region: map<string, Tables>, values: Tree, tables: Tables, key: string)
    requires Stands(cells, keys, region, values, tables) && key in cells && key in region && key in values
    requires region[key] <= tables && Holds(cells[key], region[key], values[key])
    ensures Stands(cells, keys + {key}, region, values, tables)
  {
  }

  /** Some of the keys, and where a change takes place. */
  datatype Rest = Rest(cells: map<string, Cell>, keys: set<string>, rest: set<string>,
                       region: map<string, Tables>, values: Tree, tables: Tables, changed: Tables)

  /** What happens in one region does not matter to the cells in the others. */
  twostate lemma StandsStill(r: Rest)
    requires old(Stands(r.cells, r.keys, r.region, r.values, r.tables)) && r.rest <= r.keys
    requires forall k :: k in r.rest && k in r.region ==> r.region[k] !! r.changed
    requires unchanged(r.tables - r.changed)
    ensures Stands(r.cells, r.rest, r.region, r.values, r.tables)
  {
    forall k | k in r.rest
      ensures k in r.cells && k in r.region && k in r.values && r.region[k] <= r.tables && Holds(r.cells[k], r.region[k], r.values[k])
    {
      assert old(Holds(r.cells[k], r.region[k], r.values[k]));
      assert r.region[k] <= r.tables - r.changed;
    }
  }

  /** The regions of all keys but one, seen from that one. */
  lemma OthersApart(dst: TableObject, region: map<string, Tables>, own: map<string, Tables>, key: string)
    requires Apart(dst, region) && key in region && forall k :: k in own ==> k in region && own[k] <= region[k]
    ensures forall k :: k in region && k != key ==> region[k] !! region[key] + {dst}
    ensures forall k :: k in own && k != key ==> own[k] !! region[key] + {dst}
    ensures dst !in region[key]
  {
  }

  /** What the loop is about: the contents and the regions of both tables, key by key. */
  datatype Plan = Plan(before: Tree, source: Tree, dstRegions: map<string, Tables>, srcRegions: map<string, Tables>)

  function RegionOf(p: Plan): map<string, Tables> {
    Joined(p.dstRegions, p.srcRegions)
  }

  function MergedOf(p: Plan): Tree {
    Merge(p.before, p.source)
  }

  /** The keys of the source that have been merged leave the others of the destination as they were. */
  function Left(p: Plan, unvisited: set<string>): set<string> {
    p.before.Keys - (p.source.Keys - unvisited)
  }

  ghost predicate Fits(p: Plan, dst: TableObject, tables: Tables, srcTables: Tables) {
    && p.before.Keys == p.dstRegions.Keys && p.source.Keys == p.srcRegions.Keys
    && Apart(dst, RegionOf(p)) && dst in tables && tables !! srcTables
    && (forall k :: k in p.dstRegions ==> p.dstRegions[k] <= tables)
    && (forall k :: k in p.srcRegions ==> p.srcRegions[k] < srcTables)
  }

  lemma KeyOfPlan(p: Plan, dst: TableObject, tables: Tables, srcTables: Tables, key: string)
    requires Fits(p, dst, tables, srcTables) && key in p.source
    ensures var region := RegionOf(p);
            && key in region && region[key] == At(p.dstRegions, key) + At(p.srcRegions, key) <= tables + srcTables
            && At(p.dstRegions, key) <= tables && At(p.srcRegions, key) == p.srcRegions[key] < srcTables
            && At(p.dstRegions, key) !! At(p.srcRegions, key)
            && key in MergedOf(p) && MergedOf(p)[key] == MergedValue(Get(p.before, key), p.source[key])
            && (key in p.before ==> At(p.dstRegions, key) == p.dstRegions[key])
            && (forall k :: k in p.dstRegions ==> k in region && p.dstRegions[k] <= region[k])
  {
    MergeAt(p.before, p.source);
  }

  lemma NothingStands(cells: map<string, Cell>, region: map<string, Tables>, values: Tree, tables: Tables)
    ensures Stands(cells, {}, region, values, tables)
  {
  }

  /** Where the loop is: the keys that are not unvisited any more have been merged. */
  ghost predicate Halfway(cells: map<string, Cell>, p: Plan, unvisited: set<string>, tables: Tables, srcTables: Tables)
    reads tables, srcTables
  {
    && unvisited <= p.source.Keys && cells.Keys == p.before.Keys + (p.source.Keys - unvisited)
    && Stands(cells, Left(p, unvisited), p.dstRegions, p.before, tables)
    && Stands(cells, p.source.Keys - unvisited, RegionOf(p), MergedOf(p), tables + srcTables)
  }

  lemma Begin(cells: map<string, Cell>, p: Plan, tables: Tables, srcTables: Tables)
    requires cells.Keys == p.before.Keys && Stands(cells, p.before.Keys, p.dstRegions, p.before, tables)
    ensures Halfway(cells, p, p.source.Keys, tables, srcTables)
  {
    var all := p.source.Keys;
    assert all - all == {} && Left(p, all) == p.before.Keys;
    NothingStands(cells, RegionOf(p), MergedOf(p), tables + srcTables);
    hide Stands;
  }

  /** What the loop knows about the key that it takes. */
  lemma Facing(dst: TableObject, p: Plan, unvisited: set<string>, tables: Tables, srcTables: Tables, key: string)
    requires Fits(p, dst, tables, srcTables) && key in unvisited && Halfway(dst.entries, p, unvisited, tables, srcTables)
    ensures key in p.source && key in p.srcRegions && key in RegionOf(p) && key in MergedOf(p)
    ensures RegionOf(p)[key] == At(p.dstRegions, key) + At(p.srcRegions, key) <= tables + srcTables && dst !in RegionOf(p)[key]
    ensures At(p.dstRegions, key) !! At(p.srcRegions, key) && At(p.dstRegions, key) <= tables && dst in tables
    ensures At(p.srcRegions, key) == p.srcRegions[key] && p.srcRegions[key] < srcTables
    ensures MergedOf(p)[key] == MergedValue(Get(p.before, key), p.source[key])
    ensures Get(p.before, key).Some? <==> key in dst.entries
    ensures key in dst.entries ==> Holds(dst.entries[key], At(p.dstRegions, key), Get(p.before, key).value)
  {
    KeyOfPlan(p, dst, tables, srcTables, key);
    hide Holds, Merge, MergedValue;
    if key in p.before {
      StandsAt(dst.entries, Left(p, unvisited), p.dstRegions, p.before, tables, key);
    }
  }

  /** Once a key has been merged and the others are as they were. */
  lemma Onward(start: map<string, Cell>, cells: map<string, Cell>, p: Plan, unvisited: set<string>, tables: Tables, srcTables: Tables, key: string)
    requires key in unvisited && unvisited <= p.source.Keys && start.Keys == p.before.Keys + (p.source.Keys - unvisited)
    requires cells.Keys == start.Keys + {key} && forall k :: k in start && k != key ==> cells[k] == start[k]
    requires key !in Left(p, unvisited - {key}) && Stands(start, Left(p, unvisited - {key}), p.dstRegions, p.before, tables)
    requires Stands(start, p.source.Keys - unvisited, RegionOf(p), MergedOf(p), tables + srcTables)
    requires key in RegionOf(p) && key in MergedOf(p) && RegionOf(p)[key] <= tables + srcTables
    requires Holds(cells[key], RegionOf(p)[key], MergedOf(p)[key])
    ensures Halfway(cells, p, unvisited - {key}, tables, srcTables)
  {
    var done := p.source.Keys - unvisited;
    assert done + {key} == p.source.Keys - (unvisited - {key}) by { OneLess(p.source.Keys, unvisited, key); }
    assert cells.Keys == p.before.Keys + (done + {key});
    hide RegionOf, MergedOf, Holds, Stands, Left;
    SameCells(start, cells, Left(p, unvisited - {key}), p.dstRegions, p.before, tables, key);
    SameCells(start, cells, done, RegionOf(p), MergedOf(p), tables + srcTables, key);
    StandsWith(cells, done, RegionOf(p), MergedOf(p), tables + srcTables, key);
  }

  lemma OneLess(all: set<string>, unvisited: set<string>, key: string)
    requires key in unvisited && unvisited <= all
    ensures all - unvisited + {key} == all - (unvisited - {key})
  {
  }

  lemma SameCells(start: map<string, Cell>, cells: map<string, Cell>, keys: set<string>, region: map<string, Tables>, values: Tree, tables: Tables, key: string)
    requires Stands(start, keys, region, values, tables) && key !in keys
    requires start.Keys <= cells.Keys && forall k :: k in start && k != key ==> cells[k] == start[k]
    ensures Stands(cells, keys, region, values, tables)
  {
    hide Holds;
  }

  /** A round of the loop: the entries before it, and what the loop knows. */
  datatype Round = Round(start: map<string, Cell>, dst: TableObject, p: Plan, unvisited: set<string>,
                         tables: Tables, srcTables: Tables, key: string)

  /** Where the other cells are is not where this round makes its changes. */
  lemma RoundIsApart(r: Round)
    requires Fits(r.p, r.dst, r.tables, r.srcTables) && r.key in r.unvisited && r.unvisited <= r.p.source.Keys
    ensures var rest, region := Left(r.p, r.unvisited - {r.key}), RegionOf(r.p);
            && r.key in region && region[r.key] <= r.tables + r.srcTables
            && rest <= Left(r.p, r.unvisited) && r.key !in rest
            && (forall k :: k in rest && k in r.p.dstRegions ==> r.p.dstRegions[k] !! region[r.key] + {r.dst})
            && (forall k :: k in r.p.source.Keys - r.unvisited && k in region ==> region[k] !! region[r.key] + {r.dst})
  {
    KeyOfPlan(r.p, r.dst, r.tables, r.srcTables, r.key);
    OthersApart(r.dst, RegionOf(r.p), r.p.dstRegions, r.key) by { FitsMeans(r.p, r.dst, r.tables, r.srcTables); }
    hide RegionOf, Fits, MergedOf;
  }

  /** The round has changed nothing but the table itself and the key's region. */
  twostate predicate Elsewhere(r: Round)
    reads r.tables + r.srcTables
  {
    r.key in RegionOf(r.p) && unchanged(r.tables + r.srcTables - RegionOf(r.p)[r.key] - {r.dst})
  }

  twostate lemma StillLeft(r: Round)
    requires Fits(r.p, r.dst, r.tables, r.srcTables) && r.key in r.unvisited && r.unvisited <= r.p.source.Keys && Elsewhere(r)
    requires old(Stands(r.start, Left(r.p, r.unvisited), r.p.dstRegions, r.p.before, r.tables))
    ensures Stands(r.start, Left(r.p, r.unvisited - {r.key}), r.p.dstRegions, r.p.before, r.tables)
  {
    RoundIsApart(r);
    hide Stands, Fits, RegionOf, Left;
    StandsStill(Rest(r.start, Left(r.p, r.unvisited), Left(r.p, r.unvisited - {r.key}), r.p.dstRegions, r.p.before, r.tables,
                     RegionOf(r.p)[r.key] + {r.dst}));
  }

  twostate lemma StillDone(r: Round)
    requires Fits(r.p, r.dst, r.tables, r.srcTables) && r.key in r.unvisited && r.unvisited <= r.p.source.Keys && Elsewhere(r)
    requires old(Stands(r.start, r.p.source.Keys - r.unvisited, RegionOf(r.p), MergedOf(r.p), r.tables + r.srcTables))
    ensures Stands(r.start, r.p.source.Keys - r.unvisited, RegionOf(r.p), MergedOf(r.p), r.tables + r.srcTables)
  {
    RoundIsApart(r);
    hide Stands, Fits, RegionOf, MergedOf, Left;
    var done := r.p.source.Keys - r.unvisited;
    StandsStill(Rest(r.start, done, done, RegionOf(r.p), MergedOf(r.p), r.tables + r.srcTables, RegionOf(r.p)[r.key] + {r.dst}));
  }

  twostate lemma OneMore(r: Round)
    requires Fits(r.p, r.dst, r.tables, r.srcTables) && r.key in r.unvisited && Elsewhere(r)
    requires r.start == old(r.dst.entries) && old(Halfway(r.start, r.p, r.unvisited, r.tables, r.srcTables))
    requires r.dst.entries.Keys == r.start.Keys + {r.key} && forall k :: k in r.start && k != r.key ==> r.dst.entries[k] == r.start[k]
    requires r.key in MergedOf(r.p) && Holds(r.dst.entries[r.key], RegionOf(r.p)[r.key], MergedOf(r.p)[r.key])
    ensures Halfway(r.dst.entries, r.p, r.unvisited - {r.key}, r.tables, r.srcTables)
  {
    hide Stands, Holds, Fits, RegionOf, MergedOf, Left;
    assert old(Stands(r.start, Left(r.p, r.unvisited), r.p.dstRegions, r.p.before, r.tables));
    assert old(Stands(r.start, r.p.source.Keys - r.unvisited, RegionOf(r.p), MergedOf(r.p), r.tables + r.srcTables));
    RoundIsApart(r);
    StillLeft(r);
    StillDone(r);
    hide Halfway, Elsewhere;
    Onward(r.start, r.dst.entries, r.p, r.unvisited, r.tables, r.srcTables, r.key);
  }

  /** One round of the loop. */
  method MergeOne(dst: TableObject, key: string, srcVal: Cell, ghost unvisited: set<string>,
                  ghost p: Plan, ghost tables: Tables, ghost srcTables: Tables)
    requires Fits(p, dst, tables, srcTables) && key in unvisited && Halfway(dst.entries, p, unvisited, tables, srcTables)
    requires key in p.source && key in p.srcRegions && Holds(srcVal, p.srcRegions[key], p.source[key])
    modifies tables
    ensures Halfway(dst.entries, p, unvisited - {key}, tables, srcTables)
    decreases srcTables, 0
  {
    ghost var start := dst.entries;
    Facing(dst, p, unvisited, tables, srcTables, key);
    hide *;
    MergeKey(dst, key, srcVal, At(p.dstRegions, key), At(p.srcRegions, key), Get(p.before, key), p.source[key]);
    ghost var r := Round(start, dst, p, unvisited, tables, srcTables, key);
    IsElsewhere(r);
    OneMore(r);
  }

  twostate lemma IsElsewhere(r: Round)
    requires r.key in RegionOf(r.p) && unchanged(r.tables + r.srcTables - RegionOf(r.p)[r.key] - {r.dst})
    ensures Elsewhere(r)
  {
  }

  /** The loop over the entries of the source. */
  method MergeEntries(dst: TableObject, items: map<string, Cell>, ghost p: Plan, ghost tables: Tables, ghost srcTables: Tables)
    requires Fits(p, dst, tables, srcTables) && items.Keys == p.source.Keys && dst.entries.Keys == p.before.Keys
    requires Stands(dst.entries, p.before.Keys, p.dstRegions, p.before, tables)
    requires Stands(items, p.source.Keys, p.srcRegions, p.source, srcTables)
    modifies tables
    ensures Halfway(dst.entries, p, {}, tables, srcTables)
    decreases srcTables, 1
  {
    Begin(dst.entries, p, tables, srcTables);
    assert dst in tables && tables !! srcTables;
    hide *;
    var unvisited := items.Keys;
    while unvisited != {}
      invariant unvisited <= items.Keys && Halfway(dst.entries, p, unvisited, tables, srcTables)
      decreases unvisited
    {
      var key :| key in unvisited;
      StandsAt(items, p.source.Keys, p.srcRegions, p.source, srcTables, key);
      MergeOne(dst, key, items[key], unvisited, p, tables, srcTables);
      unvisited := unvisited - {key};
    }
  }

  lemma FitsMeans(p: Plan, dst: TableObject, tables: Tables, srcTables: Tables)
    requires Fits(p, dst, tables, srcTables)
    ensures Apart(dst, RegionOf(p)) && forall k :: k in p.dstRegions ==> k in RegionOf(p) && p.dstRegions[k] <= RegionOf(p)[k]
  {
  }

  /** Two trees of tables without common tables can be merged according to plan. */
  lemma PlanFits(dst: TableObject, src: TableObject)
    requires dst.Valid() && src.Valid() && dst.repr !! src.repr
    ensures var p := Plan(dst.Contents(), src.Contents(), dst.Regions(), src.Regions());
            && Fits(p, dst, dst.repr, src.repr)
            && dst.entries.Keys == p.before.Keys && src.entries.Keys == p.source.Keys
            && Stands(dst.entries, p.before.Keys, p.dstRegions, p.before, dst.repr)
            && Stands(src.entries, p.source.Keys, p.srcRegions, p.source, src.repr)
  {
    CellsOf(dst);
    CellsOf(src);
    JoinedApart(dst, src, dst.Regions(), src.Regions(), dst.repr, src.repr);
    hide TableObject.Valid, TableObject.Contents, TableObject.Regions, Holds, Joined;
    assert forall k :: k in src.entries ==> src !in src.Regions()[k];
  }

  /** When no key is left, every cell stands for its part of the merge. */
  lemma AllStand(dst: TableObject, p: Plan, tables: Tables, srcTables: Tables)
    requires Fits(p, dst, tables, srcTables) && Halfway(dst.entries, p, {}, tables, srcTables)
    ensures Apart(dst, RegionOf(p)) && dst in tables + srcTables && dst.entries.Keys == MergedOf(p).Keys && MergedOf(p).Keys <= RegionOf(p).Keys
    ensures forall k :: k in MergedOf(p) ==> RegionOf(p)[k] <= tables + srcTables && Holds(dst.entries[k], RegionOf(p)[k], MergedOf(p)[k])
  {
    MergeAt(p.before, p.source);
    assert p.source.Keys - {} == p.source.Keys;
    hide Holds, Merge, Apart;
    forall k | k in MergedOf(p)
      ensures RegionOf(p)[k] <= tables + srcTables && Holds(dst.entries[k], RegionOf(p)[k], MergedOf(p)[k])
    {
      if k !in p.source {
        assert k in Left(p, {});
        assert RegionOf(p)[k] == p.dstRegions[k];
      }
    }
  }

  lemma MergedMeans(p: Plan)
    ensures MergedOf(p) == Merge(p.before, p.source)
  {
  }

  method DeepMerge(dst: TableObject, src: TableObject)
    requires dst.Valid() && src.Valid() && dst.repr !! src.repr
    modifies dst.repr
    ensures dst.Valid() && dst.repr == old(dst.repr) + old(src.repr)
    ensures dst.Contents() == Merge(old(dst.Contents()), old(src.Contents()))
    decreases src.repr, 2
  {
    ghost var p := Plan(dst.Contents(), src.Contents(), dst.Regions(), src.Regions());
    ghost var tables, srcTables := dst.repr, src.repr;
    PlanFits(dst, src);
    hide TableObject.Contents, TableObject.Valid, TableObject.Regions, Stands, Fits, RegionOf, MergedOf, Halfway;
    MergeEntries(dst, src.entries, p, tables, srcTables);
    AllStand(dst, p, tables, srcTables);
    Absorb(dst, tables + srcTables, RegionOf(p), MergedOf(p));
    assert MergedOf(p) == Merge(p.before, p.source) by { MergedMeans(p); }
  }

  lemma Unfold(files: seq<Tree>)
    ensures MergeAll(files) == if files == [] then map[] else Merge(MergeAll(files[..|files| - 1]), files[|files| - 1])
  {
  }

  /** A decoded file stands for the tree, and shares no table with the others. */
  ghost predicate Decoded(file: TableObject, bound: Tables, tree: Tree)
    reads bound
  {
    file in bound && file.repr <= bound && file.Valid() && file.Contents() == tree
  }

  /**
   The files merged one after the other; None is a file that cannot be read or decoded. The tables
   of earlier files are linked into the result, so merging a later file may write into them.
   */
  method ReadAndMergeFiles(files: seq<Option<TableObject>>, ghost bounds: seq<Tables>, ghost trees: seq<Tree>, ghost all: Tables)
      returns (r: Option<TableObject>)
    requires |files| == |bounds| == |trees|
    requires forall i :: 0 <= i < |files| ==> bounds[i] <= all && (files[i].Some? ==> Decoded(files[i].value, bounds[i], trees[i]))
    requires forall i, j :: 0 <= i < j < |files| ==> bounds[i] !! bounds[j]
    modifies all
    ensures r.Some? <==> forall i :: 0 <= i < |files| ==> files[i].Some?
    ensures r.Some? ==> fresh(r.value) && r.value.Valid() && r.value.Contents() == MergeAll(trees)
  {
    hide TableObject.Valid, TableObject.Contents, Merge, MergeAll;
    var rawConfig := new TableObject();
    assert trees[..0] == [];
    Unfold(trees[..0]);
    ghost var linked: Tables := {rawConfig};
    for i := 0 to |files|
      invariant forall j :: 0 <= j < i ==> files[j].Some?
      invariant rawConfig.Valid() && rawConfig.repr <= linked && rawConfig.Contents() == MergeAll(trees[..i])
      invariant forall t :: t in linked ==> fresh(t) || t in all
      invariant forall j :: i <= j < |files| ==> bounds[j] !! linked && (files[j].Some? ==> Decoded(files[j].value, bounds[j], trees[j]))
    {
      if files[i].None? {
        return None;
      }
      DeepMerge(rawConfig, files[i].value);
      linked := linked + bounds[i];
      assert trees[..i + 1][..i] == trees[..i];
      Unfold(trees[..i + 1]);
    }
    assert trees[..|files|] == trees;
    r := Some(rawConfig);
  }
}
