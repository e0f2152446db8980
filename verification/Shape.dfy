/**
  The observed shape of a result (`results.py`): which JSON paths the rows contain, how
  often and with which types. `Walk` and the index are the program's; `ValuesAt` says
  independently what is found at a path.
*/
module Shape {

  datatype Json =
    | Null | Boolean(b: bool) | Integer(i: int) | Number(mantissa: int, exponent: int) | Text(s: string)
    | Array(items: seq<Json>)
    | Object(fields: seq<Field>)

  datatype Field = Field(key: string, value: Json)

  datatype Kind = NullKind | BooleanKind | IntegerKind | NumberKind | StringKind | ArrayKind | ObjectKind

  /** `_json_type`. */
  function KindOf(value: Json): Kind {
    match value
    case Null => NullKind
    case Boolean(_) => BooleanKind
    case Integer(_) => IntegerKind
    case Number(_, _) => NumberKind
    case Text(_) => StringKind
    case Array(_) => ArrayKind
    case Object(_) => ObjectKind
  }

  /** The seven kinds tell the seven sorts of values apart. */
  lemma KindIs(value: Json)
    ensures KindOf(value).NullKind? <==> value.Null?
    ensures KindOf(value).BooleanKind? <==> value.Boolean?
    ensures KindOf(value).IntegerKind? <==> value.Integer?
    ensures KindOf(value).NumberKind? <==> value.Number?
    ensures KindOf(value).StringKind? <==> value.Text?
    ensures KindOf(value).ArrayKind? <==> value.Array?
    ensures KindOf(value).ObjectKind? <==> value.Object?
  {
  }

  datatype Step = Property(name: string) | Item

  type Path = seq<Step>

  datatype Found = Found(path: Path, value: Json)

  // ------------------------------------------------------------------- the walk

  /** `_walk_shape`: every path below the value with the value there, parents first. */
  function Walk(value: Json, prefix: Path): seq<Found>
    decreases value
  {
    (if prefix == [] then [] else [Found(prefix, value)]) +
    match value
    case Object(fields) => WalkFields(fields, prefix)
    case Array(items) => WalkItems(items, prefix)
    case _ => []
  }

  function WalkFields(fields: seq<Field>, prefix: Path): seq<Found>
    decreases fields
  {
    if fields == [] then []
    else Walk(fields[0].value, prefix + [Property(fields[0].key)]) + WalkFields(fields[1..], prefix)
  }

  function WalkItems(items: seq<Json>, prefix: Path): seq<Found>
    decreases items
  {
    if items == [] then [] else Walk(items[0], prefix + [Item]) + WalkItems(items[1..], prefix)
  }

  // ---------------------------------------------------- reference: values at a path

  /** All values a path leads to, in document order; an array step goes to every item. */
  function ValuesAt(value: Json, path: Path): seq<Json>
    decreases |path|, value
  {
    if path == [] then [value]
    else
      match (value, path[0])
      case (Object(fields), Property(_)) => InFields(fields, path)
      case (Array(items), Item) => InItems(items, path)
      case _ => []
  }

  function InFields(fields: seq<Field>, path: Path): seq<Json>
    requires path != [] && path[0].Property?
    decreases |path|, fields
  {
    if fields == [] then []
    else
      (if fields[0].key == path[0].name then ValuesAt(fields[0].value, path[1..]) else []) + InFields(fields[1..], path)
  }

  function InItems(items: seq<Json>, path: Path): seq<Json>
    requires path != []
    decreases |path|, items
  {
    if items == [] then [] else ValuesAt(items[0], path[1..]) + InItems(items[1..], path)
  }

  /** What a walk found at one path. */
  function Select(found: seq<Found>, path: Path): seq<Json> {
    if found == [] then []
    else Select(found[..|found| - 1], path) +
         if found[|found| - 1].path == path then [found[|found| - 1].value] else []
  }

  lemma {:induction false} SelectSplits(a: seq<Found>, b: seq<Found>, path: Path)
    ensures Select(a + b, path) == Select(a, path) + Select(b, path)
  {
    if b == [] {
      assert a + b == a;
    } else {
      assert (a + b)[..|a + b| - 1] == a + b[..|b| - 1];
      SelectSplits(a, b[..|b| - 1], path);
    }
  }

  lemma SelectNone(path: Path)
    ensures Select([], path) == []
  {
  }

  lemma SelectHead(f: Found, path: Path)
    ensures Select([f], path) == if f.path == path then [f.value] else []
  {
    assert [f][..0] == [];
  }

  /** Everything below a prefix has a path that begins with it. */
  lemma {:induction false} WalkStaysBelow(value: Json, prefix: Path, path: Path)
    requires !(prefix <= path)
    ensures Select(Walk(value, prefix), path) == []
    decreases value
  {
    var head := if prefix == [] then [] else [Found(prefix, value)];
    assert Select(head, path) == [] by {
      assert head != [] ==> head[..0] == [];
    }
    match value
    case Object(fields) =>
      FieldsStayBelow(fields, prefix, path);
      SelectSplits(head, WalkFields(fields, prefix), path);
    case Array(items) =>
      ItemsStayBelow(items, prefix, path);
      SelectSplits(head, WalkItems(items, prefix), path);
    case _ =>
      assert Walk(value, prefix) == head;
  }

  lemma {:induction false} FieldsStayBelow(fields: seq<Field>, prefix: Path, path: Path)
    requires !(prefix <= path)
    ensures Select(WalkFields(fields, prefix), path) == []
    decreases fields
  {
    SelectNone(path);
    hide Walk, Select;
    if fields != [] {
      var below := prefix + [Property(fields[0].key)];
      WalkStaysBelow(fields[0].value, below, path);
      FieldsStayBelow(fields[1..], prefix, path);
      SelectSplits(Walk(fields[0].value, below), WalkFields(fields[1..], prefix), path);
    }
  }

  lemma {:induction false} ItemsStayBelow(items: seq<Json>, prefix: Path, path: Path)
    requires !(prefix <= path)
    ensures Select(WalkItems(items, prefix), path) == []
    decreases items
  {
    SelectNone(path);
    hide Walk, Select;
    if items != [] {
      WalkStaysBelow(items[0], prefix + [Item], path);
      ItemsStayBelow(items[1..], prefix, path);
      SelectSplits(Walk(items[0], prefix + [Item]), WalkItems(items[1..], prefix), path);
    }
  }

  /** The walk finds at every path exactly the values that path leads to, in order. */
  lemma {:induction false} WalkFinds(value: Json, prefix: Path, path: Path)
    requires prefix + path != []
    ensures Select(Walk(value, prefix), prefix + path) == ValuesAt(value, path)
    decreases value
  {
    var head := if prefix == [] then [] else [Found(prefix, value)];
    SelectNone(prefix + path);
    SelectHead(Found(prefix, value), prefix + path);
    assert prefix + path == prefix <==> path == [] by {
      if path == [] {
        assert prefix + path == prefix;
      }
    }
    hide Select, InFields, InItems, WalkFields, WalkItems;
    match value
    case Object(fields) =>
      FieldsFind(fields, prefix, path);
      SelectSplits(head, WalkFields(fields, prefix), prefix + path);
    case Array(items) =>
      ItemsFind(items, prefix, path);
      SelectSplits(head, WalkItems(items, prefix), prefix + path);
    case _ =>
      assert Walk(value, prefix) == head;
  }

  lemma {:induction false} FieldsFind(fields: seq<Field>, prefix: Path, path: Path)
    ensures Select(WalkFields(fields, prefix), prefix + path) ==
            if path != [] && path[0].Property? then InFields(fields, path) else []
    decreases fields
  {
    SelectNone(prefix + path);
    hide Walk, ValuesAt, Select;
    if fields != [] {
      var step := Property(fields[0].key);
      if path != [] && path[0] == step {
        assert prefix + path == prefix + [step] + path[1..];
        WalkFinds(fields[0].value, prefix + [step], path[1..]);
      } else {
        assert !(prefix + [step] <= prefix + path) by {
          if path != [] {
            assert (prefix + path)[|prefix|] == path[0] && (prefix + [step])[|prefix|] == step;
          }
        }
        WalkStaysBelow(fields[0].value, prefix + [step], prefix + path);
      }
      FieldsFind(fields[1..], prefix, path);
      SelectSplits(Walk(fields[0].value, prefix + [step]), WalkFields(fields[1..], prefix), prefix + path);
    }
  }

  lemma {:induction false} ItemsFind(items: seq<Json>, prefix: Path, path: Path)
    ensures Select(WalkItems(items, prefix), prefix + path) ==
            if path != [] && path[0].Item? then InItems(items, path) else []
    decreases items
  {
    SelectNone(prefix + path);
    hide Walk, ValuesAt, Select;
    if items != [] {
      if path != [] && path[0] == Item {
        assert prefix + path == prefix + [Item] + path[1..];
        WalkFinds(items[0], prefix + [Item], path[1..]);
      } else {
        assert !(prefix + [Item] <= prefix + path) by {
          if path != [] {
            assert (prefix + path)[|prefix|] == path[0] && (prefix + [Item])[|prefix|] == Item;
          }
        }
        WalkStaysBelow(items[0], prefix + [Item], prefix + path);
      }
      ItemsFind(items[1..], prefix, path);
      SelectSplits(Walk(items[0], prefix + [Item]), WalkItems(items[1..], prefix), prefix + path);
    }
  }

  // ------------------------------------------------------------------- the index

  datatype Entry = Entry(types: set<Kind>, present: nat, nonNull: nat)

  const NOTHING := Entry({}, 0, 0)

  type Index = map<Path, Entry>

  function Look(shape: Index, path: Path): Entry {
    if path in shape then shape[path] else NOTHING
  }

  function Kinds(values: seq<Json>): set<Kind> {
    if values == [] then {} else Kinds(values[..|values| - 1]) + {KindOf(values[|values| - 1])}
  }

  /** An entry after one more row with these values at its path: the row counts once, and
      as non-null only if the first of its values is. */
  function Merge(e: Entry, values: seq<Json>): Entry {
    if values == [] then e
    else Entry(e.types + Kinds(values), e.present + 1, e.nonNull + if values[0].Null? then 0 else 1)
  }

  /** Reference: the entry of a path over all the rows. */
  function EntryFor(rows: seq<Json>, path: Path): Entry {
    if rows == [] then NOTHING
    else Merge(EntryFor(rows[..|rows| - 1], path), ValuesAt(rows[|rows| - 1], path))
  }

  /** The index holds exactly the paths that occur, each with its entry. */
  ghost predicate Describes(shape: Index, rows: seq<Json>) {
    && [] !in shape
    && forall path :: path != [] ==>
      Look(shape, path) == EntryFor(rows, path) && (path in shape <==> EntryFor(rows, path).present > 0)
  }

  lemma MergeStep(e: Entry, values: seq<Json>, value: Json)
    ensures Merge(e, values + [value]) ==
      if values == [] then Entry(e.types + {KindOf(value)}, e.present + 1, e.nonNull + if value.Null? then 0 else 1)
      else Merge(e, values).(types := Merge(e, values).types + {KindOf(value)})
  {
    var all := values + [value];
    assert all[..|all| - 1] == values;
    assert Kinds(all) == Kinds(values) + {KindOf(value)};
    assert e.types + Kinds(all) == e.types + Kinds(values) + {KindOf(value)};
  }

  lemma SelectStep(found: seq<Found>, f: Found, path: Path)
    ensures Select(found + [f], path) == Select(found, path) + if f.path == path then [f.value] else []
  {
    assert (found + [f])[..|found|] == found;
  }

  predicate NonEmptyPaths(found: seq<Found>) {
    forall i :: 0 <= i < |found| ==> found[i].path != []
  }

  /** The walk never reports the empty path. */
  lemma {:induction false} PathsAreNotEmpty(value: Json, prefix: Path)
    ensures NonEmptyPaths(Walk(value, prefix))
    decreases value
  {
    var head := if prefix == [] then [] else [Found(prefix, value)];
    match value
    case Object(fields) =>
      FieldPathsAreNotEmpty(fields, prefix);
      assert Walk(value, prefix) == head + WalkFields(fields, prefix);
    case Array(items) =>
      ItemPathsAreNotEmpty(items, prefix);
      assert Walk(value, prefix) == head + WalkItems(items, prefix);
    case _ =>
      assert Walk(value, prefix) == head;
  }

  lemma {:induction false} FieldPathsAreNotEmpty(fields: seq<Field>, prefix: Path)
    ensures NonEmptyPaths(WalkFields(fields, prefix))
    decreases fields
  {
    if fields != [] {
      PathsAreNotEmpty(fields[0].value, prefix + [Property(fields[0].key)]);
      FieldPathsAreNotEmpty(fields[1..], prefix);
    }
  }

  lemma {:induction false} ItemPathsAreNotEmpty(items: seq<Json>, prefix: Path)
    ensures NonEmptyPaths(WalkItems(items, prefix))
    decreases items
  {
    if items != [] {
      PathsAreNotEmpty(items[0], prefix + [Item]);
      ItemPathsAreNotEmpty(items[1..], prefix);
    }
  }

  /** Part of a row has been folded in: `found` is what the walk has reported so far. */
  ghost predicate Folding(shape: Index, seen: set<Path>, before: Index, found: seq<Found>) {
    && ([] in shape ==> [] in before)
    && forall path :: path != [] ==>
      && (path in seen <==> Select(found, path) != [])
      && Look(shape, path) == Merge(Look(before, path), Select(found, path))
      && (path in shape <==> path in before || path in seen)
  }

  /** One reported value goes into its entry; only the first of a row is counted. */
  function Fold(e: Entry, value: Json, seen: bool): Entry {
    if seen then e.(types := e.types + {KindOf(value)})
    else Entry(e.types + {KindOf(value)}, e.present + 1, e.nonNull + if value.Null? then 0 else 1)
  }

  lemma FoldStep(shape: Index, seen: set<Path>, before: Index, found: seq<Found>, f: Found)
    requires Folding(shape, seen, before, found) && f.path != []
    ensures Folding(shape[f.path := Fold(Look(shape, f.path), f.value, f.path in seen)], seen + {f.path}, before, found + [f])
  {
    hide Select, Merge;
    var after := shape[f.path := Fold(Look(shape, f.path), f.value, f.path in seen)];
    forall path | path != []
      ensures path in seen + {f.path} <==> Select(found + [f], path) != []
      ensures Look(after, path) == Merge(Look(before, path), Select(found + [f], path))
      ensures path in after <==> path in before || path in seen + {f.path}
    {
      SelectStep(found, f, path);
      if path == f.path {
        MergeStep(Look(before, path), Select(found, path), f.value);
        MergeNone(Look(before, path));
      } else {
        assert Select(found, path) + [] == Select(found, path);
      }
    }
  }

  lemma NothingFolded(shape: Index)
    ensures Folding(shape, {}, shape, [])
  {
  }

  lemma MergeNone(e: Entry)
    ensures Merge(e, []) == e
  {
  }

  lemma EntryStep(rows: seq<Json>, row: Json, path: Path)
    ensures EntryFor(rows + [row], path) == Merge(EntryFor(rows, path), ValuesAt(row, path))
  {
    assert (rows + [row])[..|rows|] == rows;
  }

  lemma MergeGrows(e: Entry, values: seq<Json>)
    ensures Merge(e, values).present == e.present + if values == [] then 0 else 1
  {
  }

  lemma RowFolded(shape: Index, seen: set<Path>, before: Index, row: Json, rows: seq<Json>)
    requires Describes(before, rows) && Folding(shape, seen, before, Walk(row, []))
    ensures Describes(shape, rows + [row])
  {
    hide Select, Merge, Walk, ValuesAt, EntryFor;
    forall path | path != []
      ensures Look(shape, path) == EntryFor(rows + [row], path)
      ensures path in shape <==> EntryFor(rows + [row], path).present > 0
    {
      assert [] + path == path;
      WalkFinds(row, [], path);
      EntryStep(rows, row, path);
      MergeGrows(EntryFor(rows, path), ValuesAt(row, path));
    }
  }

  /** The object `_update_shape` keeps between rows. */
  class ShapeIndex {
    var shape: Index

    constructor ()
      ensures shape == map[] && Describes(shape, [])
    {
      shape := map[];
    }

    /** `_update_shape`. */
    method Update(row: Json, ghost rows: seq<Json>)
      requires Describes(shape, rows)
      modifies this
      ensures Describes(shape, rows + [row])
    {
      ghost var before := shape;
      var seen: set<Path> := {};
      var found := Walk(row, []);
      PathsAreNotEmpty(row, []);
      hide Select, Merge, Walk, Describes, EntryFor;
      NothingFolded(before);
      for i := 0 to |found|
        invariant Folding(shape, seen, before, found[..i])
      {
        var path, value := found[i].path, found[i].value;
        assert found[..i + 1] == found[..i] + [found[i]];
        FoldStep(shape, seen, before, found[..i], found[i]);
        shape := shape[path := Fold(Look(shape, path), value, path in seen)];
        seen := seen + {path};
      }
      assert found[..|found|] == found;
      RowFolded(shape, seen, before, row, rows);
    }
  }

  // ------------------------------------------------------------------ what it means

  function RowsWith(rows: seq<Json>, path: Path): nat {
    if rows == [] then 0
    else RowsWith(rows[..|rows| - 1], path) + if ValuesAt(rows[|rows| - 1], path) != [] then 1 else 0
  }

  predicate FirstNonNull(row: Json, path: Path) {
    ValuesAt(row, path) != [] && !ValuesAt(row, path)[0].Null?
  }

  predicate SomeNonNull(row: Json, path: Path) {
    exists k :: 0 <= k < |ValuesAt(row, path)| && !ValuesAt(row, path)[k].Null?
  }

  function RowsFirstNonNull(rows: seq<Json>, path: Path): nat {
    if rows == [] then 0
    else RowsFirstNonNull(rows[..|rows| - 1], path) + if FirstNonNull(rows[|rows| - 1], path) then 1 else 0
  }

  function RowsSomeNonNull(rows: seq<Json>, path: Path): nat {
    if rows == [] then 0
    else RowsSomeNonNull(rows[..|rows| - 1], path) + if SomeNonNull(rows[|rows| - 1], path) then 1 else 0
  }

  lemma {:induction false} KindsAre(values: seq<Json>, kind: Kind)
    ensures kind in Kinds(values) <==> exists k :: 0 <= k < |values| && KindOf(values[k]) == kind
  {
    if values != [] {
      var rest, last := values[..|values| - 1], values[|values| - 1];
      KindsAre(rest, kind);
      assert values == rest + [last];
      if kind in Kinds(rest) {
        var k :| 0 <= k < |rest| && KindOf(rest[k]) == kind;
        assert KindOf(values[k]) == kind;
      }
    }
  }

  predicate Occurs(row: Json, path: Path, kind: Kind) {
    exists k :: 0 <= k < |ValuesAt(row, path)| && KindOf(ValuesAt(row, path)[k]) == kind
  }

  predicate OccursIn(rows: seq<Json>, path: Path, kind: Kind) {
    exists i :: 0 <= i < |rows| && Occurs(rows[i], path, kind)
  }

  /** The counts are numbers of rows. */
  lemma {:induction false} CountsMean(rows: seq<Json>, path: Path)
    ensures EntryFor(rows, path).present == RowsWith(rows, path)
    ensures EntryFor(rows, path).nonNull == RowsFirstNonNull(rows, path)
    ensures EntryFor(rows, path).nonNull <= EntryFor(rows, path).present <= |rows|
  {
    hide ValuesAt, Kinds;
    if rows != [] {
      CountsMean(rows[..|rows| - 1], path);
    }
  }

  /** The types are exactly those seen at the path. */
  lemma {:induction false} TypesMean(rows: seq<Json>, path: Path, kind: Kind)
    ensures kind in EntryFor(rows, path).types <==> OccursIn(rows, path, kind)
  {
    hide ValuesAt, Kinds, KindOf;
    if rows != [] {
      var rest, last := rows[..|rows| - 1], rows[|rows| - 1];
      TypesMean(rest, path, kind);
      KindsAre(ValuesAt(last, path), kind);
      assert kind in EntryFor(rows, path).types <==> kind in EntryFor(rest, path).types || Occurs(last, path, kind) by {
        KindsOfNone(kind);
      }
      OccursSplits(rows, path, kind);
    }
  }

  lemma KindsOfNone(kind: Kind)
    ensures kind !in Kinds([])
  {
  }

  lemma OccursSplits(rows: seq<Json>, path: Path, kind: Kind)
    requires rows != []
    ensures OccursIn(rows, path, kind) <==>
            OccursIn(rows[..|rows| - 1], path, kind) || Occurs(rows[|rows| - 1], path, kind)
  {
    hide Occurs;
    var rest := rows[..|rows| - 1];
    if OccursIn(rest, path, kind) {
      var i :| 0 <= i < |rest| && Occurs(rest[i], path, kind);
      assert Occurs(rows[i], path, kind);
    }
    if OccursIn(rows, path, kind) && !Occurs(rows[|rows| - 1], path, kind) {
      var i :| 0 <= i < |rows| && Occurs(rows[i], path, kind);
      assert Occurs(rest[i], path, kind);
    }
  }

  /** A path goes no further than its parent does. */
  lemma {:induction false} ParentIsReached(value: Json, path: Path, step: Step)
    requires ValuesAt(value, path) == []
    ensures ValuesAt(value, path + [step]) == []
    decreases |path|, value
  {
    if path != [] {
      assert (path + [step])[0] == path[0] && (path + [step])[1..] == path[1..] + [step];
      match (value, path[0])
      case (Object(fields), Property(_)) => ParentInFields(fields, path, step);
      case (Array(items), Item) => ParentInItems(items, path, step);
      case _ =>
    }
  }

  lemma {:induction false} ParentInFields(fields: seq<Field>, path: Path, step: Step)
    requires path != [] && path[0].Property? && InFields(fields, path) == []
    ensures InFields(fields, path + [step]) == []
    decreases |path|, fields
  {
    if fields != [] {
      assert (path + [step])[0] == path[0] && (path + [step])[1..] == path[1..] + [step];
      if fields[0].key == path[0].name {
        ParentIsReached(fields[0].value, path[1..], step);
      }
      ParentInFields(fields[1..], path, step);
    }
  }

  lemma {:induction false} ParentInItems(items: seq<Json>, path: Path, step: Step)
    requires path != [] && InItems(items, path) == []
    ensures InItems(items, path + [step]) == []
    decreases |path|, items
  {
    if items != [] {
      assert (path + [step])[1..] == path[1..] + [step];
      ParentIsReached(items[0], path[1..], step);
      ParentInItems(items[1..], path, step);
    }
  }

  /** A parent is present in at least as many rows as its child. */
  lemma {:induction false} ParentCountsMore(rows: seq<Json>, path: Path, step: Step)
    ensures EntryFor(rows, path).present >= EntryFor(rows, path + [step]).present
  {
    if rows != [] {
      var rest, last := rows[..|rows| - 1], rows[|rows| - 1];
      ParentCountsMore(rest, path, step);
      if ValuesAt(last, path) == [] {
        ParentIsReached(last, path, step);
      }
    }
  }

  // ------------------------------------------------------------------ order of rows

  lemma MergeCommutes(e: Entry, a: seq<Json>, b: seq<Json>)
    ensures Merge(Merge(e, a), b) == Merge(Merge(e, b), a)
  {
    assert e.types + Kinds(a) + Kinds(b) == e.types + Kinds(b) + Kinds(a);
  }

  /** A row may be taken out anywhere and folded in last. */
  lemma {:induction false} RowLast(rows: seq<Json>, i: nat, path: Path)
    requires i < |rows|
    ensures EntryFor(rows, path) == Merge(EntryFor(rows[..i] + rows[i + 1..], path), ValuesAt(rows[i], path))
  {
    hide Merge, ValuesAt;
    var n := |rows| - 1;
    if i == n {
      assert rows[..i] + rows[i + 1..] == rows[..n];
    } else {
      RowLast(rows[..n], i, path);
      var without := rows[..n][..i] + rows[..n][i + 1..];
      assert rows[..i] + rows[i + 1..] == without + [rows[n]];
      EntryStep(without, rows[n], path);
      MergeCommutes(EntryFor(without, path), ValuesAt(rows[i], path), ValuesAt(rows[n], path));
    }
  }

  /** The shape does not depend on the order of the rows. */
  lemma {:induction false} OrderDoesNotMatter(rows: seq<Json>, others: seq<Json>, path: Path)
    requires multiset(rows) == multiset(others)
    ensures EntryFor(rows, path) == EntryFor(others, path)
    decreases |rows|
  {
    hide EntryFor, ValuesAt, Merge;
    if rows == [] {
      assert |multiset(others)| == 0;
    } else {
      var n := |rows| - 1;
      var i := WhereLast(rows, others);
      OrderDoesNotMatter(rows[..n], others[..i] + others[i + 1..], path);
      RowLast(others, i, path);
      RowLast(rows, n, path);
      assert rows[..n] + rows[n + 1..] == rows[..n];
    }
  }

  /** The last row's place in the other order; what is left there is the same rows. */
  lemma WhereLast(rows: seq<Json>, others: seq<Json>) returns (i: nat)
    requires rows != [] && multiset(rows) == multiset(others)
    ensures i < |others| && others[i] == rows[|rows| - 1]
    ensures multiset(rows[..|rows| - 1]) == multiset(others[..i] + others[i + 1..])
  {
    var last := rows[|rows| - 1];
    assert rows == rows[..|rows| - 1] + [last];
    assert last in multiset(others);
    i :| 0 <= i < |others| && others[i] == last;
    assert others == others[..i] + [last] + others[i + 1..];
    assert multiset(others) == multiset(others[..i] + others[i + 1..]) + multiset{last};
    assert multiset(rows) == multiset(rows[..|rows| - 1]) + multiset{last};
    assert multiset(rows[..|rows| - 1]) == multiset(rows) - multiset{last};
  }

  /** The same rows in another order give the same index. */
  lemma ShapeIsOrderFree(shape: Index, other: Index, rows: seq<Json>, others: seq<Json>)
    requires multiset(rows) == multiset(others) && Describes(shape, rows) && Describes(other, others)
    ensures shape == other
  {
    hide EntryFor;
    forall path | path != []
      ensures Look(shape, path) == Look(other, path) && (path in shape <==> path in other)
    {
      OrderDoesNotMatter(rows, others, path);
    }
    assert shape.Keys == other.Keys;
    assert forall path :: path in shape ==> shape[path] == Look(shape, path) == Look(other, path) == other[path];
  }

  // ---------------------------------------------------------- the non-null count

  /** `non_null_count` is the number of rows with a non-null value exactly when no row
      hides one behind a null first value. */
  lemma {:induction false} NonNullIsExactIff(rows: seq<Json>, path: Path)
    ensures RowsFirstNonNull(rows, path) <= RowsSomeNonNull(rows, path)
    ensures RowsFirstNonNull(rows, path) == RowsSomeNonNull(rows, path) <==>
            forall i :: 0 <= i < |rows| && SomeNonNull(rows[i], path) ==> FirstNonNull(rows[i], path)
  {
    if rows != [] {
      var rest, last := rows[..|rows| - 1], rows[|rows| - 1];
      NonNullIsExactIff(rest, path);
      assert rows == rest + [last];
      assert forall i :: 0 <= i < |rest| ==> rows[i] == rest[i];
    }
  }

  /** A list whose first item is null is counted as null although a later item is not. */
  lemma FirstNullHidesTheRest()
    ensures var row := Object([Field("a", Array([Null, Boolean(true)]))]);
            var path := [Property("a"), Item];
            EntryFor([row], path).present == 1 && EntryFor([row], path).nonNull == 0 && SomeNonNull(row, path)
  {
    var items := [Null, Boolean(true)];
    var row, path := Object([Field("a", Array(items))]), [Property("a"), Item];
    assert path[1..] == [Item] && path[1..][1..] == [];
    assert ValuesAt(Null, []) == [Null] && ValuesAt(Boolean(true), []) == [Boolean(true)];
    assert items[1..] == [Boolean(true)] && items[1..][1..] == [];
    assert InItems(items[1..], [Item]) == [Boolean(true)];
    assert InItems(items, [Item]) == [Null] + [Boolean(true)];
    assert ValuesAt(Array(items), [Item]) == [Null, Boolean(true)];
    assert row.fields[1..] == [];
    assert InFields(row.fields, path) == [Null, Boolean(true)] + [];
    assert ValuesAt(row, path) == [Null, Boolean(true)];
    assert [row][..0] == [];
    assert !ValuesAt(row, path)[1].Null?;
  }

  predicate NoItems(path: Path) {
    forall i :: 0 <= i < |path| ==> path[i].Property?
  }

  /** Objects decoded from JSON text have each key once. */
  predicate DistinctKeys(fields: seq<Field>) {
    forall i, j :: 0 <= i < j < |fields| ==> fields[i].key != fields[j].key
  }

  predicate Decoded(value: Json)
    decreases value
  {
    match value
    case Object(fields) => DistinctKeys(fields) && forall i :: 0 <= i < |fields| ==> Decoded(fields[i].value)
    case Array(items) => forall i :: 0 <= i < |items| ==> Decoded(items[i])
    case _ => true
  }

  lemma {:induction false} KeyIsFoundOnce(fields: seq<Field>, path: Path)
    requires path != [] && path[0].Property? && forall i :: 0 <= i < |fields| ==> fields[i].key != path[0].name
    ensures InFields(fields, path) == []
    decreases fields
  {
    if fields != [] {
      KeyIsFoundOnce(fields[1..], path);
    }
  }

  /** Without array steps a path leads to at most one value, so there the count is exact. */
  lemma {:induction false} PropertyPathsAreUnique(value: Json, path: Path)
    requires Decoded(value) && NoItems(path)
    ensures |ValuesAt(value, path)| <= 1
    ensures SomeNonNull(value, path) <==> FirstNonNull(value, path)
    decreases |path|, value
  {
    if path != [] && value.Object? {
      UniqueInFields(value.fields, path);
    }
  }

  lemma {:induction false} UniqueInFields(fields: seq<Field>, path: Path)
    requires path != [] && NoItems(path) && path[0].Property? && DistinctKeys(fields)
    requires forall i :: 0 <= i < |fields| ==> Decoded(fields[i].value)
    ensures |InFields(fields, path)| <= 1
    decreases |path|, fields
  {
    if fields != [] {
      if fields[0].key == path[0].name {
        PropertyPathsAreUnique(fields[0].value, path[1..]);
        KeyIsFoundOnce(fields[1..], path);
      } else {
        UniqueInFields(fields[1..], path);
      }
    }
  }
}
