/**
 * The parsed instruction the synthetic-dataset planner works from
 * (Synthetic-data-creator/create_datasets.py), the cell values it produces,
 * and the column classification it is driven by.
 *
 * The instruction is the JSON object the planner model returns, already
 * parsed: a list of entities, each with columns and a row count.
 */
module SyntheticSchema {
  import opened Wrappers
  import Dicts

  /**
   * One column of an entity: `name`, `type`, and the optional `role`,
   * `references` ("entity.column") and numeric `constraints`.
   */
  datatype Column = Column(
    name: string,
    typeName: string,
    role: Option<string>,
    references: Option<string>,
    constraints: Option<seq<int>>)

  datatype Entity = Entity(name: string, columns: seq<Column>, count: int)

  /**
   * A cell of a generated row. Floats are kept as the text the rounded draw
   * prints as; `Null` is Python's None.
   */
  datatype Value = Int(n: int) | Float(text: string) | Str(s: string) | Null

  /** A generated row: column name to value, in insertion order. */
  type Row = Dicts.Dict<Value>

  /** Entity name to (primary-key column name to the recorded keys). */
  type KeyIndex = Dicts.Dict<Dicts.Dict<seq<int>>>

  /** The exceptions generation can raise, one per failing library call or assertion. */
  datatype GenError =
    | BadConstraints      // the `assert` on `numeric_constraints`
    | OutOfInt64          // `np.random.randint(lo, hi)` with lo or hi - 1 outside int64
    | EmptyRange          // `np.random.randint(lo, hi)` with lo >= hi
    | FloatOverflow       // `np.random.uniform(lo, hi)` with a bound or `hi - lo` beyond the doubles
    | MissingReference    // `None.split(".")`
    | MalformedReference  // `ref_name, ref_col = ref.split(".")` without exactly one dot
    | UnknownEntity       // `.get(ref_name)` gives None, whose `.get` fails
    | UnknownKeyColumn    // `np.random.choice(None)`
    | EmptyKeyList        // `np.random.choice([])`

  const SimpleTypes: set<string> := {"int", "integer", "float", "decimal", "string"}
  const ComplexRoles: set<string> := {"free_text", "description", "review", "comment"}

  /** `is_simple_column(column)`. */
  function IsSimpleColumn(c: Column): (simple: bool)
    ensures simple <==> c.typeName in SimpleTypes && c.name !in ComplexRoles
  {
    if c.typeName in SimpleTypes && c.name !in ComplexRoles then true
    else if c.name in ComplexRoles then false
    else false
  }

  /** `c.get("role") == "foreign_key"`. */
  predicate IsForeignKey(c: Column)
  {
    c.role == Some("foreign_key")
  }

  /** `c.get("role") == "primary_key"`: the exact spelling, as the key-list comprehension tests it. */
  predicate IsPrimaryKey(c: Column)
  {
    c.role == Some("primary_key")
  }

  /** `any(c.get("role") == "foreign_key" for c in entity["columns"])`. */
  predicate HasForeignKey(e: Entity)
  {
    exists j :: 0 <= j < |e.columns| && IsForeignKey(e.columns[j])
  }

  /** Python's `any`, scanning the columns from the left and stopping at the first foreign key. */
  function AnyForeignKey(cs: seq<Column>): bool
  {
    if cs == [] then false
    else if IsForeignKey(cs[0]) then true
    else AnyForeignKey(cs[1..])
  }

  /** The scan answers yes exactly when some column has the foreign-key role. */
  lemma {:induction false} AnyForeignKeyExists(cs: seq<Column>)
    ensures AnyForeignKey(cs) <==> exists j :: 0 <= j < |cs| && IsForeignKey(cs[j])
  {
    if cs != [] && !IsForeignKey(cs[0]) {
      AnyForeignKeyExists(cs[1..]);
      if exists j :: 0 <= j < |cs| && IsForeignKey(cs[j]) {
        var j :| 0 <= j < |cs| && IsForeignKey(cs[j]);
        assert cs[1..][j - 1] == cs[j];
      }
    }
  }

  /** The entity test used by both passes of the planner is the `any` scan over its columns. */
  lemma HasForeignKeyIsAny(e: Entity)
    ensures HasForeignKey(e) <==> AnyForeignKey(e.columns)
  {
    AnyForeignKeyExists(e.columns);
  }

  /** ASCII lower-casing of one character. */
  function LowerChar(ch: char): char
  {
    if 'A' <= ch <= 'Z' then (ch as int + 32) as char else ch
  }

  /** `s.lower()`, on ASCII letters. */
  function Lower(s: string): (r: string)
    ensures |r| == |s|
    ensures forall i :: 0 <= i < |s| ==> r[i] == LowerChar(s[i])
  {
    seq(|s|, i requires 0 <= i < |s| => LowerChar(s[i]))
  }

  /** Lower-casing leaves no ASCII capital and changes nothing the second time. */
  lemma LowerIsLower(s: string)
    ensures forall i :: 0 <= i < |s| ==> !('A' <= Lower(s)[i] <= 'Z')
    ensures Lower(Lower(s)) == Lower(s)
  {
  }

  /** `list(range(n))`. */
  function Range(n: int): (r: seq<int>)
    ensures |r| == if n < 0 then 0 else n
    ensures forall i :: 0 <= i < |r| ==> r[i] == i
  {
    if n <= 0 then [] else Range(n - 1) + [n - 1]
  }

  /** How many rows `for i in range(n_rows)` produces. */
  function RowCount(e: Entity): nat
  {
    if e.count < 0 then 0 else e.count
  }

  function DotCount(s: string): nat
  {
    if s == [] then 0 else (if s[0] == '.' then 1 else 0) + DotCount(s[1..])
  }

  lemma {:induction false} DotCountAppend(a: string, b: string)
    ensures DotCount(a + b) == DotCount(a) + DotCount(b)
  {
    if a == [] {
      assert a + b == b;
    } else {
      assert (a + b)[1..] == a[1..] + b;
      DotCountAppend(a[1..], b);
    }
  }

  /** The position of the first dot, if any. */
  function FirstDot(s: string): (r: Option<nat>)
    ensures r.None? <==> DotCount(s) == 0
    ensures r.Some? ==> r.value < |s| && s[r.value] == '.' && DotCount(s[..r.value]) == 0
  {
    if s == [] then None
    else if s[0] == '.' then
      assert s[..0] == [];
      Some(0)
    else
      match FirstDot(s[1..])
      case None => None
      case Some(k) =>
        assert s[..k + 1] == [s[0]] + s[1..][..k];
        DotCountAppend([s[0]], s[1..][..k]);
        Some(k + 1)
  }

  /** `ref_name, ref_col = ref.split(".")`: succeeds exactly when there is one dot. */
  function SplitReference(s: string): (r: Option<(string, string)>)
    ensures r.Some? <==> DotCount(s) == 1
    ensures r.Some? ==> s == r.value.0 + "." + r.value.1
    ensures r.Some? ==> DotCount(r.value.0) == 0 && DotCount(r.value.1) == 0
  {
    match FirstDot(s)
    case None => None
    case Some(k) =>
      assert s == s[..k] + [s[k]] + s[k + 1..];
      DotCountAppend(s[..k] + [s[k]], s[k + 1..]);
      DotCountAppend(s[..k], [s[k]]);
      if DotCount(s[k + 1..]) == 0 then Some((s[..k], s[k + 1..])) else None
  }

  /** Joining a dot-free entity name and column name with a dot splits back into the two. */
  lemma SplitReferenceRoundTrip(entity: string, column: string)
    requires DotCount(entity) == 0 && DotCount(column) == 0
    ensures SplitReference(entity + "." + column) == Some((entity, column))
  {
    var s := entity + "." + column;
    DotCountAppend(entity + ".", column);
    DotCountAppend(entity, ".");
    var r := SplitReference(s);
    assert r.Some?;
    var (a, b) := r.value;
    assert s[|entity|] == '.';
    if |a| < |entity| {
      DotCountAppend(a, ".");
      assert entity == a + "." + entity[|a| + 1..] by {
        assert s[..|entity|] == entity;
      }
      DotCountAppend(a + ".", entity[|a| + 1..]);
      assert false;
    } else if |a| > |entity| {
      assert a[|entity|] == s[|entity|];
      assert a == a[..|entity|] + "." + a[|entity| + 1..];
      DotCountAppend(a[..|entity|] + ".", a[|entity| + 1..]);
      DotCountAppend(a[..|entity|], ".");
      assert false;
    }
    assert a == s[..|a|] == entity;
    assert b == s[|a| + 1..] == column;
  }
}
