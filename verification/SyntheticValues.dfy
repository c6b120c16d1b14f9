/**
 * Cell values of the synthetic-dataset planner
 * (Synthetic-data-creator/create_datasets.py): the simple generators, the
 * foreign-key draw, and the context and messages for the model that fills
 * the complex columns.
 *
 * Randomness, Faker and the model are the `Chance` oracles: every draw is a
 * function of the cell it is made for, and is constrained only where the
 * code constrains it.
 */
module SyntheticValues {
  import opened Wrappers
  import opened Dicts
  import opened SyntheticSchema
  import Base

  /** The cell a draw is made for: entity name, row index, column position. */
  datatype Site = Site(entity: string, row: nat, column: nat)

  datatype FakeKind = FakeName | FakeEmail | FakeProduct

  /**
   * `draw` stands for numpy's integer draws, `uniform` for the text of a
   * rounded `np.random.uniform` draw, `fake` for Faker's `name()`, `email()`
   * and `word().title()`, and `complete` for the chat model.
   */
  datatype Chance = Chance(
    draw: Site -> nat,
    uniform: Site -> string,
    fake: (FakeKind, Site) -> string,
    complete: (string, seq<Base.Message>) -> string)

  /** The model name given to the module's `BasePromptGenerator`. */
  const PlannerModel: string := "gpt-4o-mini"

  /** The range of numpy's default integer type, int64. */
  const Int64Min: int := -0x8000_0000_0000_0000
  const Int64Max: int := 0x7fff_ffff_ffff_ffff

  /** The bounds `randint` accepts before it looks at the range: `lo` and `hi - 1` are int64 values. */
  predicate InInt64(lo: int, hi: int)
  {
    Int64Min <= lo && hi - 1 <= Int64Max
  }

  /**
   * `np.random.randint(lo, hi)`: numpy first rejects a bound outside int64,
   * then an empty range, and otherwise draws a value in [lo, hi).
   */
  function RandInt(lo: int, hi: int, draw: nat): (r: Result<int, GenError>)
    ensures r == Err(OutOfInt64) <==> !InInt64(lo, hi)
    ensures r == Err(EmptyRange) <==> InInt64(lo, hi) && hi <= lo
    ensures r.Ok? <==> InInt64(lo, hi) && lo < hi
    ensures r.Ok? ==> lo <= r.value < hi && Int64Min <= r.value <= Int64Max
  {
    if lo < Int64Min || hi - 1 > Int64Max then Err(OutOfInt64)
    else if lo >= hi then Err(EmptyRange)
    else Ok(lo + draw % (hi - lo))
  }

  /** Every value of a non-empty int64 range can be drawn; outside int64 nothing can. */
  lemma RandIntCovers(lo: int, hi: int, v: int)
    requires lo <= v < hi
    ensures RandInt(lo, hi, (v - lo) as nat) == if InInt64(lo, hi) then Ok(v) else Err(OutOfInt64)
  {
    if InInt64(lo, hi) {
      SmallModulus(v - lo, hi - lo);
    }
  }

  /** A draw below the range width is taken as it is. */
  lemma SmallModulus(d: nat, width: int)
    requires d < width
    ensures d % width == d
  {
  }

  /** The `assert` of `generate_simple_value`: constraints are absent or a pair. */
  predicate ConstraintsOk(constraints: Option<seq<int>>)
  {
    constraints.None? || |constraints.value| == 2
  }

  /** 2 to the power `n`. */
  function Pow2(n: nat): (p: nat)
    ensures p >= 1
  {
    if n == 0 then 1 else 2 * Pow2(n - 1)
  }

  /** The bits of `m` beyond the 53 bits of a double's significand. */
  function ExcessBits(m: nat): nat
  {
    if m < 0x20_0000_0000_0000 then 0 else 1 + ExcessBits(m / 2)
  }

  /** `m` rounded to the nearest double, ties to even, with the exponent left unbounded. */
  function RoundMagnitude(m: nat): nat
  {
    var e := ExcessBits(m);
    var p := Pow2(e);
    if e == 0 then m
    else if 2 * (m % p) > p || (2 * (m % p) == p && (m / p) % 2 == 1) then (m / p + 1) * p
    else m / p * p
  }

  /** The double nearest to `x`, as Python's `float(x)` rounds it. */
  function RoundToDouble(x: int): int
  {
    if x < 0 then 0 - RoundMagnitude(-x) else RoundMagnitude(x)
  }

  /** 2^1024 - 2^970, halfway between the largest double and 2^1024: from here on a value rounds to infinity. */
  const DoubleOverflow: int := 0xFF_FFFF_FFFF_FFFC_0000_0000_0000_0000_0000_0000_0000_0000_0000_0000_0000_0000_0000_0000_0000_0000_0000_0000_0000_0000_0000_0000_0000_0000_0000_0000_0000_0000_0000_0000_0000_0000_0000_0000_0000_0000_0000_0000_0000_0000_0000_0000_0000_0000_0000_0000_0000_0000_0000_0000_0000_0000_0000_0000_0000_0000_0000_0000_0000_0000_00

  /** `x` rounds to a finite double. */
  predicate FitsDouble(x: int)
  {
    -DoubleOverflow < x < DoubleOverflow
  }

  /**
   * The bounds `np.random.uniform(lo, hi)` accepts: both convert to doubles,
   * and their difference, computed in doubles, is finite.
   */
  predicate UniformOk(lo: int, hi: int)
  {
    FitsDouble(lo) && FitsDouble(hi) && FitsDouble(RoundToDouble(hi) - RoundToDouble(lo))
  }

  /** Integers below 2^53 are doubles as they are. */
  lemma SmallIsDouble(x: int)
    requires -0x20_0000_0000_0000 < x < 0x20_0000_0000_0000
    ensures RoundToDouble(x) == x
  {
    if x < 0 {
      assert ExcessBits(-x) == 0;
    } else {
      assert ExcessBits(x) == 0;
    }
  }

  /** Bounds below 2^52 in size, the default [1.0, 1000.0) among them, never overflow. */
  lemma SmallBoundsUniformOk(lo: int, hi: int)
    requires -0x10_0000_0000_0000 < lo < 0x10_0000_0000_0000
    requires -0x10_0000_0000_0000 < hi < 0x10_0000_0000_0000
    ensures UniformOk(lo, hi)
  {
    SmallIsDouble(lo);
    SmallIsDouble(hi);
  }

  /** The draw bounds: [1, 1000) by default, else the two constraints. */
  function Bounds(constraints: Option<seq<int>>): (int, int)
    requires ConstraintsOk(constraints)
  {
    if constraints.None? then (1, 1000) else (constraints.value[0], constraints.value[1])
  }

  /** `role.lower() == "primary_key"`, as `generate_simple_value` tests it. */
  predicate IsPrimaryKeyRole(role: Option<string>)
  {
    role.Some? && Lower(role.value) == "primary_key"
  }

  predicate IsIntegerType(typeName: string)
  {
    typeName == "integer" || typeName == "int"
  }

  predicate IsFloatType(typeName: string)
  {
    typeName == "float" || typeName == "decimal"
  }

  /** The lower-cased column names Faker fills. */
  predicate IsFakedName(name: string)
  {
    name == "name" || name == "email" || name == "product"
  }

  /**
   * `generate_simple_value(column, row_idx, column.get("constraints"))`.
   * Only simple columns reach it, so the type is one of the simple types.
   */
  function GenerateSimpleValue(c: Column, rowIdx: nat, site: Site, ch: Chance): (r: Result<Value, GenError>)
    requires c.typeName in SimpleTypes
    ensures !ConstraintsOk(c.constraints) ==> r == Err(BadConstraints)
    ensures ConstraintsOk(c.constraints) && IsIntegerType(c.typeName) && IsPrimaryKeyRole(c.role) ==>
      r == Ok(Int(rowIdx))
    ensures ConstraintsOk(c.constraints) && IsIntegerType(c.typeName) && !IsPrimaryKeyRole(c.role) ==>
      && (r == Err(OutOfInt64) <==> !InInt64(Bounds(c.constraints).0, Bounds(c.constraints).1))
      && (r.Ok? <==> InInt64(Bounds(c.constraints).0, Bounds(c.constraints).1) && Bounds(c.constraints).0 < Bounds(c.constraints).1)
      && (r.Err? ==> r.error == OutOfInt64 || r.error == EmptyRange)
      && (r.Ok? ==> r.value.Int? && Bounds(c.constraints).0 <= r.value.n < Bounds(c.constraints).1)
    ensures ConstraintsOk(c.constraints) && IsFloatType(c.typeName) ==>
      && (r.Ok? <==> UniformOk(Bounds(c.constraints).0, Bounds(c.constraints).1))
      && (r.Ok? ==> r.value.Float?)
      && (r.Err? ==> r.error == FloatOverflow)
    ensures ConstraintsOk(c.constraints) && c.typeName == "string" ==>
      && r.Ok? && (r.value.Str? || r.value.Null?)
      && (r.value.Null? <==> !IsFakedName(Lower(c.name)))
  {
    if !ConstraintsOk(c.constraints) then Err(BadConstraints)
    else
      var name := Lower(c.name);
      if IsIntegerType(c.typeName) then
        if IsPrimaryKeyRole(c.role) then Ok(Int(rowIdx))
        else
          var (lo, hi) := Bounds(c.constraints);
          match RandInt(lo, hi, ch.draw(site))
          case Ok(n) => Ok(Int(n))
          case Err(e) => Err(e)
      else if IsFloatType(c.typeName) then
        var (lo, hi) := Bounds(c.constraints);
        if UniformOk(lo, hi) then Ok(Float(ch.uniform(site))) else Err(FloatOverflow)
      else if name == "name" then Ok(Str(ch.fake(FakeName, site)))
      else if name == "email" then Ok(Str(ch.fake(FakeEmail, site)))
      else if name == "product" then Ok(Str(ch.fake(FakeProduct, site)))
      else Ok(Null)
  }

  /** A float column without constraints draws from [1.0, 1000.0), which never overflows. */
  lemma DefaultFloatSucceeds(c: Column, rowIdx: nat, site: Site, ch: Chance)
    requires IsFloatType(c.typeName) && c.constraints.None?
    ensures GenerateSimpleValue(c, rowIdx, site, ch).Ok?
    ensures GenerateSimpleValue(c, rowIdx, site, ch).value.Float?
  {
    SmallBoundsUniformOk(1, 1000);
  }

  /** `generate_value_one_column(column, row_idx)`: None for a complex column. */
  function GenerateValueOneColumn(c: Column, rowIdx: nat, site: Site, ch: Chance): (r: Result<Value, GenError>)
    ensures !IsSimpleColumn(c) ==> r == Ok(Null)
  {
    if IsSimpleColumn(c) then GenerateSimpleValue(c, rowIdx, site, ch) else Ok(Null)
  }

  /**
   * `dict_primary_keys_by_entity.get(ref_name).get(ref_col)` for the
   * column's `references`, with the exception each missing piece raises.
   */
  function ReferencedKeys(c: Column, index: KeyIndex): (r: Result<seq<int>, GenError>)
    ensures c.references.None? ==> r == Err(MissingReference)
    ensures c.references.Some? && DotCount(c.references.value) != 1 ==> r == Err(MalformedReference)
  {
    if c.references.None? then Err(MissingReference)
    else
      match SplitReference(c.references.value)
      case None => Err(MalformedReference)
      case Some((entity, column)) =>
        match Get(index, entity)
        case None => Err(UnknownEntity)
        case Some(keys) =>
          match Get(keys, column)
          case None => Err(UnknownKeyColumn)
          case Some(pks) => Ok(pks)
  }

  /**
   * For a reference `entity.column`: an entity not yet generated raises, a
   * column that is not one of its primary keys raises, and otherwise the
   * recorded key list is found.
   */
  lemma ReferencedKeysCases(c: Column, index: KeyIndex, entity: string, column: string)
    requires c.references == Some(entity + "." + column)
    requires DotCount(entity) == 0 && DotCount(column) == 0
    ensures entity in Keys(index) <==> Get(index, entity).Some?
    ensures entity !in Keys(index) ==> ReferencedKeys(c, index) == Err(UnknownEntity)
    ensures entity in Keys(index) && column !in Keys(Get(index, entity).value) ==>
      ReferencedKeys(c, index) == Err(UnknownKeyColumn)
    ensures entity in Keys(index) && column in Keys(Get(index, entity).value) ==>
      Get(Get(index, entity).value, column).Some? &&
      ReferencedKeys(c, index) == Ok(Get(Get(index, entity).value, column).value)
  {
    SplitReferenceRoundTrip(entity, column);
    GetSomeIffKey(index, entity);
    if Get(index, entity).Some? {
      GetSomeIffKey(Get(index, entity).value, column);
    }
  }

  /** `np.random.choice(...)` over the referenced key list: always one of its members. */
  function ForeignKeyValue(c: Column, index: KeyIndex, site: Site, ch: Chance): (r: Result<Value, GenError>)
    ensures r.Ok? <==> ReferencedKeys(c, index).Ok? && ReferencedKeys(c, index).value != []
    ensures ReferencedKeys(c, index).Err? ==> r == Err(ReferencedKeys(c, index).error)
    ensures ReferencedKeys(c, index) == Ok([]) ==> r == Err(EmptyKeyList)
    ensures r.Ok? ==> r.value.Int? && r.value.n in ReferencedKeys(c, index).value
  {
    match ReferencedKeys(c, index)
    case Err(e) => Err(e)
    case Ok(pks) =>
      if pks == [] then Err(EmptyKeyList) else Ok(Int(pks[ch.draw(site) % |pks|]))
  }

  /** Every recorded key of the referenced column can be drawn. */
  lemma ForeignKeyCovers(c: Column, index: KeyIndex, site: Site, ch: Chance, k: nat)
    requires ReferencedKeys(c, index).Ok? && k < |ReferencedKeys(c, index).value|
    requires ch.draw(site) == k
    ensures ForeignKeyValue(c, index, site, ch) == Ok(Int(ReferencedKeys(c, index).value[k]))
  {
  }

  /** The value create_datasets.py lines 100-107 puts in a cell in the first pass. */
  function FirstPassValue(c: Column, index: KeyIndex, rowIdx: nat, site: Site, ch: Chance): (r: Result<Value, GenError>)
  {
    if IsForeignKey(c) then ForeignKeyValue(c, index, site, ch)
    else GenerateValueOneColumn(c, rowIdx, site, ch)
  }

  /**
   * The first pass's cases: a foreign key is drawn from the recorded keys
   * whatever its type, a simple column gets a simple value, any other column
   * gets None, and only a foreign key reads the key index.
   */
  lemma FirstPassValueCases(c: Column, index: KeyIndex, rowIdx: nat, site: Site, ch: Chance)
    ensures IsForeignKey(c) ==> FirstPassValue(c, index, rowIdx, site, ch) == ForeignKeyValue(c, index, site, ch)
    ensures !IsForeignKey(c) && IsSimpleColumn(c) ==>
      FirstPassValue(c, index, rowIdx, site, ch) == GenerateSimpleValue(c, rowIdx, site, ch)
    ensures !IsForeignKey(c) && !IsSimpleColumn(c) ==> FirstPassValue(c, index, rowIdx, site, ch) == Ok(Null)
    ensures !IsForeignKey(c) ==> FirstPassValue(c, index, rowIdx, site, ch) == FirstPassValue(c, [], rowIdx, site, ch)
  {
  }

  function DigitChar(d: nat): char
    requires d < 10
  {
    ('0' as int + d) as char
  }

  predicate IsDigit(ch: char)
  {
    '0' <= ch <= '9'
  }

  /** The decimal digits of `n`, without leading zeros. */
  function NatText(n: nat): (s: string)
    ensures |s| >= 1 && (forall i :: 0 <= i < |s| ==> IsDigit(s[i]))
    ensures s[0] == '0' ==> n == 0
  {
    if n < 10 then [DigitChar(n)] else NatText(n / 10) + [DigitChar(n % 10)]
  }

  /** `str(n)` for an integer. */
  function IntText(n: int): (s: string)
  {
    if n < 0 then "-" + NatText(-n) else NatText(n)
  }

  function DigitValue(ch: char): nat
    requires IsDigit(ch)
  {
    ch as int - '0' as int
  }

  /** The value of a string of decimal digits. */
  function NatValue(s: string): nat
    requires forall i :: 0 <= i < |s| ==> IsDigit(s[i])
  {
    if s == [] then 0 else NatValue(s[..|s| - 1]) * 10 + DigitValue(s[|s| - 1])
  }

  /** `int(s)` for what `str` prints. */
  function IntValue(s: string): int
    requires |s| >= 1 && (s[0] == '-' || IsDigit(s[0]))
    requires forall i :: 1 <= i < |s| ==> IsDigit(s[i])
  {
    if s[0] == '-' then 0 - NatValue(s[1..]) else NatValue(s)
  }

  lemma {:induction false} NatTextRoundTrip(n: nat)
    ensures NatValue(NatText(n)) == n
  {
    if n >= 10 {
      var s := NatText(n / 10) + [DigitChar(n % 10)];
      assert s[..|s| - 1] == NatText(n / 10);
      NatTextRoundTrip(n / 10);
    }
  }

  /** The text of an integer reads back as that integer. */
  lemma IntTextRoundTrip(n: int)
    ensures IntValue(IntText(n)) == n
  {
    if n < 0 {
      assert IntText(n)[1..] == NatText(-n);
      NatTextRoundTrip(-n);
    } else {
      NatTextRoundTrip(n);
    }
  }

  /** `"id" in s`, scanning from the left. */
  function ContainsId(s: string): bool
  {
    |s| >= 2 && ((s[0] == 'i' && s[1] == 'd') || ContainsId(s[1..]))
  }

  /** `ContainsId` holds exactly when "id" occurs at some position. */
  lemma {:induction false} ContainsIdIsSubstring(s: string)
    ensures ContainsId(s) <==> exists i, j :: 0 <= i && j == i + 1 && j < |s| && s[i] == 'i' && s[j] == 'd'
  {
    if |s| >= 2 {
      var t := s[1..];
      ContainsIdIsSubstring(t);
      if ContainsId(s) && !(s[0] == 'i' && s[1] == 'd') {
        var i, j :| 0 <= i && j == i + 1 && j < |t| && t[i] == 'i' && t[j] == 'd';
        assert s[i + 1] == 'i' && s[j + 1] == 'd';
      }
      if !ContainsId(s) {
        forall i, j | 0 <= i && j == i + 1 && j < |s| ensures !(s[i] == 'i' && s[j] == 'd') {
          if i > 0 {
            assert s[i] == t[i - 1] && s[j] == t[j - 1];
          }
        }
      }
    }
  }

  /** How `f"{value}"` prints a cell. */
  function ShowValue(v: Value): string
  {
    match v
    case Int(n) => IntText(n)
    case Float(text) => text
    case Str(s) => s
    case Null => "None"
  }

  /** A cell the context leaves out: its value is None or its column name contains "id". */
  predicate Skipped(name: string, v: Value)
  {
    v.Null? || ContainsId(name)
  }

  /** The context line of one cell: `"{col_name}: {value}\n"`, or nothing for a skipped cell. */
  function ContextLine(name: string, v: Value): (line: string)
    ensures line == [] <==> Skipped(name, v)
  {
    if Skipped(name, v) then "" else name + ": " + ShowValue(v) + "\n"
  }

  /** The lines `line` gives the first `n` cells of a row, concatenated in row order. */
  function Lines(row: Row, line: (string, Value) -> string, n: nat): string
    requires n <= |row|
  {
    if n == 0 then "" else Lines(row, line, n - 1) + line(row[n - 1].key, row[n - 1].value)
  }

  /** `generate_context_for_complex_value(row)`. */
  function Context(row: Row): string
  {
    Lines(row, ContextLine, |row|)
  }

  /** Appending cells does not change the lines of the cells already there. */
  lemma {:induction false} LinesPrefix(a: Row, b: Row, line: (string, Value) -> string, n: nat)
    requires n <= |a|
    ensures Lines(a + b, line, n) == Lines(a, line, n)
  {
    if n > 0 {
      LinesPrefix(a, b, line, n - 1);
      assert (a + b)[n - 1] == a[n - 1];
    }
  }

  lemma {:induction false} LinesSuffix(a: Row, b: Row, line: (string, Value) -> string, k: nat)
    requires k <= |b|
    ensures Lines(a + b, line, |a| + k) == Lines(a, line, |a|) + Lines(b, line, k)
  {
    if k == 0 {
      LinesPrefix(a, b, line, |a|);
    } else {
      LinesSuffix(a, b, line, k - 1);
      assert (a + b)[|a| + k - 1] == b[k - 1];
    }
  }

  /** The lines are empty exactly when every cell's line is. */
  lemma {:induction false} LinesEmpty(row: Row, line: (string, Value) -> string, n: nat)
    requires n <= |row|
    ensures Lines(row, line, n) == [] <==> forall i :: 0 <= i < n ==> line(row[i].key, row[i].value) == []
  {
    if n > 0 {
      LinesEmpty(row, line, n - 1);
    }
  }

  /** The context of a row is the contexts of its parts, in order. */
  lemma ContextAppend(a: Row, b: Row)
    ensures Context(a + b) == Context(a) + Context(b)
  {
    LinesSuffix(a, b, ContextLine, |b|);
  }

  /** The context is empty exactly when every cell is skipped. */
  lemma ContextEmpty(row: Row)
    ensures Context(row) == [] <==> forall i :: 0 <= i < |row| ==> Skipped(row[i].key, row[i].value)
  {
    LinesEmpty(row, ContextLine, |row|);
  }

  /** `generate_context_for_complex_value`: one line per cell that is not skipped, appended in row order. */
  method GenerateContext(row: Row) returns (context: string)
    ensures context == Context(row)
  {
    context := "";
    for i := 0 to |row|
      invariant context == Lines(row, ContextLine, i)
    {
      var name, value := row[i].key, row[i].value;
      if value.Null? || ContainsId(name) {
        continue;
      }
      context := context + (name + ": " + ShowValue(value) + "\n");
    }
  }

  const ComplexSystemMessage: string :=
    "You are generating synthetic data for a tabular dataset."

  /** The literal parts of the user message's f-string, in order. */
  const Template1: string :=
    "    \n"
    + "    Entity: "
  const Template2: string :=
    "\n"
    + "    Field to generate: "
  const Template3: string :=
    ", type: "
  const Template4: string :=
    "\n"
    + "\n"
    + "    Context:\n"
    + "    "
  const Template5: string :=
    "\n"
    + "\n"
    + "    Instructions:\n"
    + "    - Generate a realistic and contextually appropriate value for the field \""
  const Template6: string :=
    "\".\n"
    + "    - Make sure the value matches the expected type and style for this field.\n"
    + "    - Do not repeat the context or field name in the output.\n"
    + "    - Only output the value, nothing else.\n"
    + "    Now, generate the value.\n"
    + "    "

  /** The user message of `generate_message_for_complex_value`. */
  function ComplexUserMessage(entityName: string, fieldName: string, fieldType: string, context: string): string
  {
    Template1 + entityName + (Template2 + fieldName + Template3 + fieldType + Template4) + context
    + (Template5 + fieldName + Template6)
  }

  /** In `a + x + b + y + c`, `x` and `y` sit right after `a` and after `a + x + b`. */
  lemma SlotsOf(a: string, x: string, b: string, y: string, c: string)
    ensures var m := a + x + b + y + c;
      && |a + x + b| + |y| <= |m|
      && m[|a|..|a| + |x|] == x
      && m[|a + x + b|..|a + x + b| + |y|] == y
  {
  }

  /**
   * The user message holds the entity name right after its first literal
   * part, and the row's context right after the field line and the
   * "Context:" heading.
   */
  lemma ComplexUserMessageParts(entityName: string, fieldName: string, fieldType: string, context: string)
    ensures var m := ComplexUserMessage(entityName, fieldName, fieldType, context);
      var head := Template1 + entityName + (Template2 + fieldName + Template3 + fieldType + Template4);
      && |head| + |context| <= |m|
      && m[|Template1|..|Template1| + |entityName|] == entityName
      && m[|head|..|head| + |context|] == context
  {
    SlotsOf(Template1, entityName, Template2 + fieldName + Template3 + fieldType + Template4, context,
      Template5 + fieldName + Template6);
  }

  /**
   * `generate_message_for_complex_value(entity_name, column_info, row)`: the
   * same system-then-user pair `create_message` builds.
   */
  function ComplexValueMessages(entityName: string, c: Column, row: Row): (m: seq<Base.Message>)
    ensures m == Base.CreateMessage(ComplexSystemMessage, ComplexUserMessage(entityName, c.name, c.typeName, Context(row)))
  {
    [Base.Message("system", ComplexSystemMessage),
     Base.Message("user", ComplexUserMessage(entityName, c.name, c.typeName, Context(row)))]
  }

  /** `generate_complex_value(entity_name, column_info, row)`: the model's reply to those messages. */
  method GenerateComplexValue(entityName: string, c: Column, row: Row, ch: Chance) returns (value: string)
    ensures value == ch.complete(PlannerModel, ComplexValueMessages(entityName, c, row))
  {
    var context := GenerateContext(row);
    var messages := [
      Base.Message("system", ComplexSystemMessage),
      Base.Message("user", ComplexUserMessage(entityName, c.name, c.typeName, context))];
    value := ch.complete(PlannerModel, messages);
  }
}
