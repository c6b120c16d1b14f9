/**
 * `generate_one_dataset` (Synthetic-data-creator/create_datasets.py): the
 * rows of one entity, each built in two passes over the columns, and the
 * primary-key lists recorded for the entity.
 *
 * The functions below define the result from the last row and the last
 * column backwards; `GenerateOneDataset` builds it with the source's loops.
 */
module SyntheticDataset {
  import opened Wrappers
  import opened Dicts
  import opened SyntheticSchema
  import opened SyntheticValues

  /** The column names, in order. */
  function Names(cs: seq<Column>): seq<string>
  {
    seq(|cs|, j requires 0 <= j < |cs| => cs[j].name)
  }

  predicate Distinct(ns: seq<string>)
  {
    forall p, q :: 0 <= p < q < |ns| ==> ns[p] != ns[q]
  }

  /** The keys a dict gets when the names are written in order: each name at its first write. */
  function Dedup(ns: seq<string>): seq<string>
  {
    if ns == [] then []
    else
      var ks := Dedup(ns[..|ns| - 1]);
      if ns[|ns| - 1] in ks then ks else ks + [ns[|ns| - 1]]
  }

  /** A name is kept exactly when it is written at least once. */
  lemma {:induction false} DedupMembers(ns: seq<string>, n: string)
    ensures n in Dedup(ns) <==> n in ns
    decreases |ns|
  {
    if ns != [] {
      var init := ns[..|ns| - 1];
      DedupMembers(init, n);
      assert ns == init + [ns[|ns| - 1]];
    }
  }

  /** Distinct names are kept as they are. */
  lemma {:induction false} DedupDistinct(ns: seq<string>)
    requires Distinct(ns)
    ensures Dedup(ns) == ns
    decreases |ns|
  {
    if ns != [] {
      var init := ns[..|ns| - 1];
      DedupDistinct(init);
      assert ns == init + [ns[|ns| - 1]];
    }
  }

  /**
   * Collects the first `n` results in order, or gives the first exception:
   * a loop whose body can raise.
   */
  function Gather<T>(rs: seq<Result<T, GenError>>, n: nat): Result<seq<T>, GenError>
    requires n <= |rs|
  {
    if n == 0 then Ok([])
    else
      match Gather(rs, n - 1)
      case Err(err) => Err(err)
      case Ok(xs) =>
        match rs[n - 1]
        case Err(err) => Err(err)
        case Ok(x) => Ok(xs + [x])
  }

  /** Once an exception is raised, later iterations do not run. */
  lemma {:induction false} GatherSticky<T>(rs: seq<Result<T, GenError>>, m: nat, n: nat)
    requires m <= n <= |rs| && Gather(rs, m).Err?
    ensures Gather(rs, n) == Gather(rs, m)
    decreases n
  {
    if m < n {
      GatherSticky(rs, m, n - 1);
    }
  }

  /** A successful iteration appends its value. */
  lemma GatherStep<T>(rs: seq<Result<T, GenError>>, i: nat, xs: seq<T>, x: T)
    requires i < |rs| && Gather(rs, i) == Ok(xs) && rs[i] == Ok(x)
    ensures Gather(rs, i + 1) == Ok(xs + [x])
  {
  }

  /** A failing iteration's exception is the loop's. */
  lemma GatherFails<T>(rs: seq<Result<T, GenError>>, i: nat, n: nat)
    requires i < n <= |rs| && Gather(rs, i).Ok? && rs[i].Err?
    ensures Gather(rs, n) == Err(rs[i].error)
  {
    GatherSticky(rs, i + 1, n);
  }

  /** Success means every iteration succeeded, and the values are theirs in order; otherwise the error is the first one raised. */
  lemma {:induction false} GatherShape<T>(rs: seq<Result<T, GenError>>, n: nat)
    requires n <= |rs|
    ensures Gather(rs, n).Ok? <==> forall i :: 0 <= i < n ==> rs[i].Ok?
    ensures Gather(rs, n).Ok? ==>
      |Gather(rs, n).value| == n && forall i :: 0 <= i < n ==> rs[i] == Ok(Gather(rs, n).value[i])
    ensures Gather(rs, n).Err? ==>
      exists i :: 0 <= i < n && rs[i] == Err(Gather(rs, n).error) && forall p :: 0 <= p < i ==> rs[p].Ok?
  {
    if n > 0 {
      GatherShape(rs, n - 1);
      if Gather(rs, n - 1).Err? {
        var i :| 0 <= i < n - 1 && rs[i] == Err(Gather(rs, n - 1).error) && forall p :: 0 <= p < i ==> rs[p].Ok?;
        assert 0 <= i < n && rs[i] == Err(Gather(rs, n).error);
      }
    }
  }

  /**
   * The first pass (create_datasets.py, lines 98-108): the cells written into an empty dict in
   * column order, ending at the first exception.
   */
  function Fill(names: seq<string>, cells: seq<Result<Value, GenError>>, k: nat): Result<Row, GenError>
    requires k <= |names| == |cells|
  {
    if k == 0 then Ok([])
    else
      match Fill(names, cells, k - 1)
      case Err(err) => Err(err)
      case Ok(row) =>
        match cells[k - 1]
        case Err(err) => Err(err)
        case Ok(v) => Ok(Put(row, names[k - 1], v))
  }

  lemma {:induction false} FillSticky(names: seq<string>, cells: seq<Result<Value, GenError>>, j: nat, k: nat)
    requires j <= k <= |names| == |cells| && Fill(names, cells, j).Err?
    ensures Fill(names, cells, k) == Fill(names, cells, j)
    decreases k
  {
    if j < k {
      FillSticky(names, cells, j, k - 1);
    }
  }

  /** The keys after `k` writes: each name once, at its first write. */
  lemma {:induction false} FillKeys(names: seq<string>, cells: seq<Result<Value, GenError>>, k: nat)
    requires k <= |names| == |cells| && Fill(names, cells, k).Ok?
    ensures Keys(Fill(names, cells, k).value) == Dedup(names[..k])
    ensures UniqueKeys(Fill(names, cells, k).value)
  {
    if k > 0 {
      FillKeys(names, cells, k - 1);
      PutKeys(Fill(names, cells, k - 1).value, names[k - 1], cells[k - 1].value);
      assert names[..k][..k - 1] == names[..k - 1];
    }
  }

  /**
   * The last write wins: a cell holds the value of the last column with its
   * name among the first `k` (with distinct names, its own value).
   */
  lemma {:induction false} FillCell(names: seq<string>, cells: seq<Result<Value, GenError>>, k: nat, j: nat)
    requires j < k <= |names| == |cells| && Fill(names, cells, k).Ok?
    requires forall q :: j < q < k ==> names[q] != names[j]
    ensures cells[j].Ok? && Get(Fill(names, cells, k).value, names[j]) == Some(cells[j].value)
  {
    PutGet(Fill(names, cells, k - 1).value, names[k - 1], cells[k - 1].value, names[j]);
    if j < k - 1 {
      FillCell(names, cells, k - 1, j);
    }
  }

  /** The value create_datasets.py lines 100-107 compute for each column of row `i`; none depends on the cells before it. */
  function FirstPassCells(e: Entity, index: KeyIndex, i: nat, ch: Chance): (cells: seq<Result<Value, GenError>>)
    ensures |cells| == |e.columns|
  {
    seq(|e.columns|, j requires 0 <= j < |e.columns| => FirstPassValue(e.columns[j], index, i, Site(e.name, i, j), ch))
  }

  /** The first pass of row `i`. */
  function FirstPass(e: Entity, index: KeyIndex, i: nat, ch: Chance): Result<Row, GenError>
  {
    Fill(Names(e.columns), FirstPassCells(e, index, i, ch), |e.columns|)
  }

  /**
   * The second pass (create_datasets.py, lines 110-113) over the first `k` columns: a complex
   * column whose cell is still None gets `reply` for the column and the row
   * as it stands.
   */
  function SecondPass(cs: seq<Column>, reply: (Column, Row) -> string, row: Row, k: nat): Row
    requires k <= |cs|
  {
    if k == 0 then row
    else
      var before := SecondPass(cs, reply, row, k - 1);
      var c := cs[k - 1];
      if !IsSimpleColumn(c) && Get(before, c.name) == Some(Null) then Put(before, c.name, Str(reply(c, before)))
      else before
  }

  /** `generate_complex_value(entity["name"], c, row)`. */
  function Reply(e: Entity, ch: Chance): (Column, Row) -> string
  {
    (c: Column, row: Row) => ch.complete(PlannerModel, ComplexValueMessages(e.name, c, row))
  }

  /** Row `i`: both passes over all columns. */
  function GenerateRow(e: Entity, index: KeyIndex, i: nat, ch: Chance): Result<Row, GenError>
  {
    match FirstPass(e, index, i, ch)
    case Err(err) => Err(err)
    case Ok(row) => Ok(SecondPass(e.columns, Reply(e, ch), row, |e.columns|))
  }

  /** Every row of the entity, each generated or failed. */
  function RowResults(e: Entity, index: KeyIndex, ch: Chance): (rs: seq<Result<Row, GenError>>)
    ensures |rs| == RowCount(e)
  {
    seq(RowCount(e), i requires 0 <= i < RowCount(e) => GenerateRow(e, index, i, ch))
  }

  /** Row `i`'s result: both passes, or the first pass's exception. */
  lemma RowResultAt(e: Entity, index: KeyIndex, ch: Chance, i: nat)
    requires i < RowCount(e)
    ensures FirstPass(e, index, i, ch).Err? ==> RowResults(e, index, ch)[i] == Err(FirstPass(e, index, i, ch).error)
    ensures FirstPass(e, index, i, ch).Ok? ==>
      RowResults(e, index, ch)[i] == Ok(SecondPass(e.columns, Reply(e, ch), FirstPass(e, index, i, ch).value, |e.columns|))
  {
  }

  /** `{c["name"]: keys for c in columns if c.get("role") == "primary_key"}`. */
  function PrimaryKeyDict(cs: seq<Column>, keys: seq<int>): Dict<seq<int>>
  {
    if cs == [] then []
    else
      var d := PrimaryKeyDict(cs[..|cs| - 1], keys);
      var c := cs[|cs| - 1];
      if IsPrimaryKey(c) then Put(d, c.name, keys) else d
  }

  /** What `generate_one_dataset` returns: the rows behind the data frame and the key lists. */
  datatype Dataset = Dataset(rows: seq<Row>, primaryKeys: Dict<seq<int>>)

  /** `generate_one_dataset(entity, dict_primary_keys_by_entity)`. */
  function OneDataset(e: Entity, index: KeyIndex, ch: Chance): Result<Dataset, GenError>
  {
    match Gather(RowResults(e, index, ch), RowCount(e))
    case Err(err) => Err(err)
    case Ok(rows) => Ok(Dataset(rows, PrimaryKeyDict(e.columns, Range(e.count))))
  }

  /** create_datasets.py lines 98-108: the first pass of row `i`, column by column. */
  method FirstPassRow(e: Entity, index: KeyIndex, i: nat, ch: Chance) returns (r: Result<Row, GenError>)
    ensures r == FirstPass(e, index, i, ch)
  {
    ghost var names, cells := Names(e.columns), FirstPassCells(e, index, i, ch);
    var row: Row := [];
    for j := 0 to |e.columns|
      invariant Fill(names, cells, j) == Ok(row)
    {
      var c := e.columns[j];
      var value := FirstPassValue(c, index, i, Site(e.name, i, j), ch);
      if value.Err? {
        FillSticky(names, cells, j + 1, |e.columns|);
        return Err(value.error);
      }
      row := Put(row, c.name, value.value);
    }
    return Ok(row);
  }

  /** create_datasets.py lines 110-113: the second pass, asking the model for each complex cell still None. */
  method SecondPassRow(e: Entity, ch: Chance, first: Row) returns (row: Row)
    ensures row == SecondPass(e.columns, Reply(e, ch), first, |e.columns|)
  {
    row := first;
    for j := 0 to |e.columns|
      invariant row == SecondPass(e.columns, Reply(e, ch), first, j)
    {
      var c := e.columns[j];
      if !IsSimpleColumn(c) && Get(row, c.name) == Some(Null) {
        var text := GenerateComplexValue(e.name, c, row, ch);
        assert text == Reply(e, ch)(c, row);
        row := Put(row, c.name, Str(text));
      }
    }
  }

  /** `generate_one_dataset`: the key lists, then the rows in order. */
  method GenerateOneDataset(e: Entity, index: KeyIndex, ch: Chance) returns (r: Result<Dataset, GenError>)
    ensures r == OneDataset(e, index, ch)
  {
    var primaryKeys := Range(e.count);
    var keysByColumn := PrimaryKeyDict(e.columns, primaryKeys);
    var rows: seq<Row> := [];
    var n := RowCount(e);
    ghost var results := RowResults(e, index, ch);
    for i := 0 to n
      invariant Gather(results, i) == Ok(rows)
    {
      RowResultAt(e, index, ch, i);
      var first := FirstPassRow(e, index, i, ch);
      if first.Err? {
        GatherFails(results, i, n);
        return Err(first.error);
      }
      var row := SecondPassRow(e, ch, first.value);
      GatherStep(results, i, rows, row);
      rows := rows + [row];
    }
    return Ok(Dataset(rows, keysByColumn));
  }

  /** The recorded key lists: one per primary-key column name, each the given list. */
  lemma {:induction false} PrimaryKeyDictShape(cs: seq<Column>, keys: seq<int>)
    ensures UniqueKeys(PrimaryKeyDict(cs, keys))
    ensures forall n :: n in Keys(PrimaryKeyDict(cs, keys)) <==>
      exists j :: 0 <= j < |cs| && IsPrimaryKey(cs[j]) && cs[j].name == n
    ensures forall n :: n in Keys(PrimaryKeyDict(cs, keys)) ==> Get(PrimaryKeyDict(cs, keys), n) == Some(keys)
    decreases |cs|
  {
    if cs != [] {
      var init := cs[..|cs| - 1];
      PrimaryKeyDictShape(init, keys);
      PutKeys(PrimaryKeyDict(init, keys), cs[|cs| - 1].name, keys);
      forall n | n in Keys(PrimaryKeyDict(cs, keys)) ensures Get(PrimaryKeyDict(cs, keys), n) == Some(keys) {
        PutGet(PrimaryKeyDict(init, keys), cs[|cs| - 1].name, keys, n);
      }
      assert forall j :: 0 <= j < |init| ==> init[j] == cs[j];
    }
  }

  /**
   * A dataset is generated exactly when every row is; it then has `count`
   * rows (none for a negative count), row `i` being `GenerateRow` for `i`.
   * Otherwise the exception is the first failing row's.
   */
  lemma OneDatasetRows(e: Entity, index: KeyIndex, ch: Chance)
    ensures OneDataset(e, index, ch).Ok? <==> forall i :: 0 <= i < RowCount(e) ==> GenerateRow(e, index, i, ch).Ok?
    ensures OneDataset(e, index, ch).Err? ==>
      exists i :: 0 <= i < RowCount(e) && GenerateRow(e, index, i, ch) == Err(OneDataset(e, index, ch).error) &&
        forall p :: 0 <= p < i ==> GenerateRow(e, index, p, ch).Ok?
    ensures OneDataset(e, index, ch).Ok? ==>
      var d := OneDataset(e, index, ch).value;
      && |d.rows| == RowCount(e)
      && (e.count >= 0 ==> |d.rows| == e.count)
      && (forall i :: 0 <= i < |d.rows| ==> GenerateRow(e, index, i, ch) == Ok(d.rows[i]))
  {
    var rs := RowResults(e, index, ch);
    GatherShape(rs, RowCount(e));
    assert forall i :: 0 <= i < RowCount(e) ==> rs[i] == GenerateRow(e, index, i, ch);
    if Gather(rs, RowCount(e)).Err? {
      var i :| 0 <= i < RowCount(e) && rs[i] == Err(Gather(rs, RowCount(e)).error) &&
        forall p :: 0 <= p < i ==> rs[p].Ok?;
      assert GenerateRow(e, index, i, ch) == Err(OneDataset(e, index, ch).error);
    }
  }

  /** Every primary-key column of a generated dataset records the keys 0 .. count-1, and no other column does. */
  lemma OneDatasetKeys(e: Entity, index: KeyIndex, ch: Chance)
    requires OneDataset(e, index, ch).Ok?
    ensures var d := OneDataset(e, index, ch).value;
      forall n :: n in Keys(d.primaryKeys) <==>
        exists j :: 0 <= j < |e.columns| && IsPrimaryKey(e.columns[j]) && e.columns[j].name == n
    ensures var d := OneDataset(e, index, ch).value;
      forall n :: n in Keys(d.primaryKeys) ==>
        && Get(d.primaryKeys, n).Some?
        && |Get(d.primaryKeys, n).value| == RowCount(e)
        && forall k :: 0 <= k < RowCount(e) ==> Get(d.primaryKeys, n).value[k] == k
  {
    PrimaryKeyDictShape(e.columns, Range(e.count));
  }

  /** The second pass only rewrites existing cells: the keys stay as they are. */
  lemma {:induction false} SecondPassKeys(cs: seq<Column>, reply: (Column, Row) -> string, row: Row, k: nat)
    requires k <= |cs|
    ensures Keys(SecondPass(cs, reply, row, k)) == Keys(row)
    ensures UniqueKeys(row) ==> UniqueKeys(SecondPass(cs, reply, row, k))
  {
    if k > 0 {
      SecondPassKeys(cs, reply, row, k - 1);
      var before := SecondPass(cs, reply, row, k - 1);
      GetSomeIffKey(before, cs[k - 1].name);
      if Get(before, cs[k - 1].name).Some? {
        PutKeys(before, cs[k - 1].name, Str(reply(cs[k - 1], before)));
      }
    }
  }

  /** One step of the second pass changes at most the cell of its own column. */
  lemma SecondPassStep(cs: seq<Column>, reply: (Column, Row) -> string, row: Row, k: nat, name: string)
    requires 0 < k <= |cs| && name != cs[k - 1].name
    ensures Get(SecondPass(cs, reply, row, k), name) == Get(SecondPass(cs, reply, row, k - 1), name)
  {
    var before := SecondPass(cs, reply, row, k - 1);
    PutGet(before, cs[k - 1].name, Str(reply(cs[k - 1], before)), name);
  }

  /** With distinct names, column `j`'s cell is untouched by the second pass until column `j` is reached. */
  lemma {:induction false} SecondPassCellBefore(cs: seq<Column>, reply: (Column, Row) -> string, row: Row, k: nat, j: nat)
    requires Distinct(Names(cs))
    requires k <= j < |cs|
    ensures Get(SecondPass(cs, reply, row, k), cs[j].name) == Get(row, cs[j].name)
  {
    if k > 0 {
      SecondPassCellBefore(cs, reply, row, k - 1, j);
      assert Names(cs)[j] != Names(cs)[k - 1];
      SecondPassStep(cs, reply, row, k, cs[j].name);
    }
  }

  /** With distinct names, column `j`'s cell keeps what column `j`'s own step made of it. */
  lemma {:induction false} SecondPassCellAfter(cs: seq<Column>, reply: (Column, Row) -> string, row: Row, k: nat, j: nat)
    requires Distinct(Names(cs))
    requires j < k <= |cs|
    ensures Get(SecondPass(cs, reply, row, k), cs[j].name) == Get(SecondPass(cs, reply, row, j + 1), cs[j].name)
  {
    if k > j + 1 {
      SecondPassCellAfter(cs, reply, row, k - 1, j);
      assert Names(cs)[j] != Names(cs)[k - 1];
      SecondPassStep(cs, reply, row, k, cs[j].name);
    }
  }

  /**
   * With distinct names, column `j`'s cell after the second pass: the
   * reply, if the column is complex and its cell was None, and otherwise
   * the cell as the first pass left it.
   */
  lemma SecondPassCell(cs: seq<Column>, reply: (Column, Row) -> string, row: Row, j: nat)
    requires Distinct(Names(cs)) && j < |cs|
    ensures Get(SecondPass(cs, reply, row, |cs|), cs[j].name) ==
      if !IsSimpleColumn(cs[j]) && Get(row, cs[j].name) == Some(Null)
      then Some(Str(reply(cs[j], SecondPass(cs, reply, row, j))))
      else Get(row, cs[j].name)
  {
    SecondPassCellBefore(cs, reply, row, j, j);
    SecondPassCellAfter(cs, reply, row, |cs|, j);
    var before := SecondPass(cs, reply, row, j);
    PutGet(before, cs[j].name, Str(reply(cs[j], before)), cs[j].name);
  }

  /** Each generated row has one key per column name, in column order; exactly the names when they are distinct. */
  lemma RowKeys(e: Entity, index: KeyIndex, i: nat, ch: Chance)
    requires GenerateRow(e, index, i, ch).Ok?
    ensures Keys(GenerateRow(e, index, i, ch).value) == Dedup(Names(e.columns))
    ensures UniqueKeys(GenerateRow(e, index, i, ch).value)
    ensures Distinct(Names(e.columns)) ==> Keys(GenerateRow(e, index, i, ch).value) == Names(e.columns)
  {
    var names, cells := Names(e.columns), FirstPassCells(e, index, i, ch);
    FillKeys(names, cells, |names|);
    assert names[..|names|] == names;
    SecondPassKeys(e.columns, Reply(e, ch), Fill(names, cells, |names|).value, |names|);
    if Distinct(names) {
      DedupDistinct(names);
    }
  }

  /**
   * With distinct names, the final cell of column `j` in row `i` is the
   * first-pass value, except that a complex column's None becomes the
   * model's reply to the messages built from the row as it then stood.
   */
  lemma RowCell(e: Entity, index: KeyIndex, i: nat, ch: Chance, j: nat)
    requires Distinct(Names(e.columns)) && j < |e.columns|
    requires GenerateRow(e, index, i, ch).Ok?
    ensures var c := e.columns[j];
      var v := FirstPassValue(c, index, i, Site(e.name, i, j), ch);
      var first := FirstPass(e, index, i, ch).value;
      && v.Ok?
      && Get(first, c.name) == Some(v.value)
      && Get(GenerateRow(e, index, i, ch).value, c.name) ==
        if !IsSimpleColumn(c) && v.value == Null
        then Some(Str(Reply(e, ch)(c, SecondPass(e.columns, Reply(e, ch), first, j))))
        else Some(v.value)
  {
    var names, cells := Names(e.columns), FirstPassCells(e, index, i, ch);
    FillCell(names, cells, |e.columns|, j);
    assert names[j] == e.columns[j].name;
    SecondPassCell(e.columns, Reply(e, ch), Fill(names, cells, |e.columns|).value, j);
  }

  /** An integer primary-key column holds the row index. */
  lemma PrimaryKeyCellIsRowIndex(e: Entity, index: KeyIndex, i: nat, ch: Chance, j: nat)
    requires Distinct(Names(e.columns)) && j < |e.columns|
    requires GenerateRow(e, index, i, ch).Ok?
    requires IsSimpleColumn(e.columns[j]) && IsIntegerType(e.columns[j].typeName)
    requires IsPrimaryKeyRole(e.columns[j].role)
    ensures Get(GenerateRow(e, index, i, ch).value, e.columns[j].name) == Some(Int(i))
  {
    var c := e.columns[j];
    assert Lower(c.role.value)[0] == 'p';
    RowCell(e, index, i, ch, j);
  }

  /** A foreign-key cell holds one of the keys recorded for the referenced column. */
  lemma ForeignKeyCellIsRecordedKey(e: Entity, index: KeyIndex, i: nat, ch: Chance, j: nat)
    requires Distinct(Names(e.columns)) && j < |e.columns|
    requires GenerateRow(e, index, i, ch).Ok?
    requires IsForeignKey(e.columns[j])
    ensures ReferencedKeys(e.columns[j], index).Ok?
    ensures var cell := Get(GenerateRow(e, index, i, ch).value, e.columns[j].name);
      cell.Some? && cell.value.Int? && cell.value.n in ReferencedKeys(e.columns[j], index).value
  {
    RowCell(e, index, i, ch, j);
  }

  /** A non-key integer cell lies in [1, 1000), or in the constraint range. */
  lemma IntegerCellInBounds(e: Entity, index: KeyIndex, i: nat, ch: Chance, j: nat)
    requires Distinct(Names(e.columns)) && j < |e.columns|
    requires GenerateRow(e, index, i, ch).Ok?
    requires IsSimpleColumn(e.columns[j]) && IsIntegerType(e.columns[j].typeName)
    requires !IsPrimaryKeyRole(e.columns[j].role) && !IsForeignKey(e.columns[j])
    ensures ConstraintsOk(e.columns[j].constraints)
    ensures var (lo, hi) := Bounds(e.columns[j].constraints);
      var cell := Get(GenerateRow(e, index, i, ch).value, e.columns[j].name);
      cell.Some? && cell.value.Int? && lo <= cell.value.n < hi
  {
    RowCell(e, index, i, ch, j);
  }

  /**
   * After the first pass a complex column (not a foreign key) is None, and
   * so is a simple string column not named name, email or product; the
   * second pass fills the first with text and leaves the second None.
   */
  lemma EmptyCells(e: Entity, index: KeyIndex, i: nat, ch: Chance, j: nat)
    requires Distinct(Names(e.columns)) && j < |e.columns|
    requires GenerateRow(e, index, i, ch).Ok?
    requires !IsForeignKey(e.columns[j])
    ensures var c := e.columns[j];
      var first := FirstPass(e, index, i, ch).value;
      var cell := Get(GenerateRow(e, index, i, ch).value, c.name);
      && (!IsSimpleColumn(c) ==> Get(first, c.name) == Some(Null) && cell.Some? && cell.value.Str?)
      && (IsSimpleColumn(c) && c.typeName == "string" && !IsFakedName(Lower(c.name)) ==>
            Get(first, c.name) == Some(Null) && cell == Some(Null))
  {
    RowCell(e, index, i, ch, j);
  }

  /** The second pass keeps every simple cell and every cell that is not None. */
  lemma SecondPassKeepsFilledCells(e: Entity, index: KeyIndex, i: nat, ch: Chance, j: nat)
    requires Distinct(Names(e.columns)) && j < |e.columns|
    requires GenerateRow(e, index, i, ch).Ok?
    ensures var c := e.columns[j];
      var first := FirstPass(e, index, i, ch).value;
      (IsSimpleColumn(c) || Get(first, c.name) != Some(Null)) ==>
        Get(GenerateRow(e, index, i, ch).value, c.name) == Get(first, c.name)
  {
    RowCell(e, index, i, ch, j);
  }

  /** Without foreign-key columns no cell reads the key index. */
  lemma RowsIgnoreIndex(e: Entity, index: KeyIndex, ch: Chance)
    requires !HasForeignKey(e)
    ensures RowResults(e, index, ch) == RowResults(e, [], ch)
  {
    forall i | 0 <= i < RowCount(e) ensures GenerateRow(e, index, i, ch) == GenerateRow(e, [], i, ch) {
      assert FirstPassCells(e, index, i, ch) == FirstPassCells(e, [], i, ch);
    }
  }

  /** An entity without foreign keys comes out the same whatever key index it is given. */
  lemma IndexUnusedWithoutForeignKeys(e: Entity, index: KeyIndex, ch: Chance)
    requires !HasForeignKey(e)
    ensures OneDataset(e, index, ch) == OneDataset(e, [], ch)
  {
    RowsIgnoreIndex(e, index, ch);
  }
}
