/**
 * Upload parsing and product-id validation: the reader is chosen by the
 * file's extension, the frame loses every row with a missing cell and is
 * renumbered, and the id column is checked against the platform's rules.
 * A frame is its column names, its index labels and its rows of cells;
 * `None` is a missing cell (pandas' NaN), `Some(s)` a cell whose `str()`
 * is `s`. `ValidationError`s are the `Err` values.
 */
module FileParsing {
  import opened Wrappers
  import opened Text

  datatype Result<T> = Ok(value: T) | Err(error: Failure)

  /** The `ValidationError`s, one constructor per message. */
  datatype Failure =
    | UnsupportedFormat
    | MustStartWith(prefix: string)
    | MustHaveLength(length: nat)
    | MustBeAlphanumeric
    | MustBeNumeric
    | MustBeUnique
    | ContainsNulls(column: string)
    | UnsupportedPlatform(platform: string)
    | MissingColumn(column: string)

  // ---------------------------------------------------------------------
  // FileReaderFactory.get_reader
  // ---------------------------------------------------------------------

  datatype Reader = CsvReader | ExcelReader

  /** `get_reader`: the extensions are tried in order, on the lower-cased name. */
  function GetReader(filename: string): Result<Reader> {
    var name := Lower(filename);
    if EndsWith(name, ".csv") then Ok(CsvReader)
    else if EndsWith(name, ".xlsx") then Ok(ExcelReader)
    else Err(UnsupportedFormat)
  }

  /** No name ends in both extensions, so the order of the table does not matter. */
  lemma ExtensionsExclusive(name: string)
    requires EndsWith(name, ".xlsx")
    ensures !EndsWith(name, ".csv")
  {
    assert name[|name| - 4] == ".xlsx"[1] == 'x';
  }

  /** CSV for `.csv`, Excel for `.xlsx`, in any letter case, and an error for every other name. */
  lemma GetReaderMeaning(filename: string)
    ensures GetReader(filename) == Ok(CsvReader) <==> EndsWith(Lower(filename), ".csv")
    ensures GetReader(filename) == Ok(ExcelReader) <==> EndsWith(Lower(filename), ".xlsx")
    ensures GetReader(filename).Err? <==> !EndsWith(Lower(filename), ".csv") && !EndsWith(Lower(filename), ".xlsx")
  {
    if EndsWith(Lower(filename), ".xlsx") {
      ExtensionsExclusive(Lower(filename));
    }
  }

  lemma LowerIdempotent(s: string)
    ensures Lower(Lower(s)) == Lower(s)
  {
  }

  /** Upper-case extensions are accepted: the choice depends only on the lower-cased name. */
  lemma GetReaderIgnoresCase(filename: string)
    ensures GetReader(filename) == GetReader(Lower(filename))
  {
    LowerIdempotent(filename);
  }

  // ---------------------------------------------------------------------
  // DataFrameCleaner
  // ---------------------------------------------------------------------

  type Cell = Option<string>
  type Record = seq<Cell>

  datatype Frame = Frame(columns: seq<string>, index: seq<int>, rows: seq<Record>)

  predicate Complete(r: Record) {
    forall j :: 0 <= j < |r| ==> r[j].Some?
  }

  /** The rows and labels of the rows without a missing cell, in order (`dropna`). */
  function DropNulls(index: seq<int>, rows: seq<Record>): (kept: (seq<int>, seq<Record>))
    requires |index| == |rows|
    ensures |kept.0| == |kept.1| <= |rows|
    ensures forall i :: 0 <= i < |kept.1| ==> Complete(kept.1[i])
    decreases |rows|
  {
    if rows == [] then ([], [])
    else
      var rest := DropNulls(index[1..], rows[1..]);
      if Complete(rows[0]) then ([index[0]] + rest.0, [rows[0]] + rest.1) else rest
  }

  /** `dropna(inplace=True)` */
  function DropNa(df: Frame): Frame
    requires |df.index| == |df.rows|
  {
    var kept := DropNulls(df.index, df.rows);
    Frame(df.columns, kept.0, kept.1)
  }

  function Range(n: nat): (r: seq<int>)
    ensures |r| == n && forall i :: 0 <= i < n ==> r[i] == i
  {
    seq(n, i requires 0 <= i < n => i)
  }

  /** `reset_index(drop=True, inplace=True)` */
  function ResetIndex(df: Frame): Frame {
    df.(index := Range(|df.rows|))
  }

  /** Every complete row survives, and only those do. */
  lemma {:induction false} DropNullsKeeps(index: seq<int>, rows: seq<Record>, r: Record)
    requires |index| == |rows|
    ensures r in DropNulls(index, rows).1 <==> r in rows && Complete(r)
    decreases |rows|
  {
    if rows != [] {
      DropNullsKeeps(index[1..], rows[1..], r);
      assert rows == [rows[0]] + rows[1..];
    }
  }

  /** The kept rows keep their order: dropping from two halves is dropping from the whole. */
  lemma {:induction false} DropNullsConcat(i1: seq<int>, r1: seq<Record>, i2: seq<int>, r2: seq<Record>)
    requires |i1| == |r1| && |i2| == |r2|
    ensures DropNulls(i1 + i2, r1 + r2) == (DropNulls(i1, r1).0 + DropNulls(i2, r2).0, DropNulls(i1, r1).1 + DropNulls(i2, r2).1)
    decreases |r1|
  {
    if r1 == [] {
      assert i1 == [] && i1 + i2 == i2 && r1 + r2 == r2;
      assert DropNulls(i1, r1) == ([], []);
      assert DropNulls(i2, r2).0 == [] + DropNulls(i2, r2).0 && DropNulls(i2, r2).1 == [] + DropNulls(i2, r2).1;
    } else {
      assert (i1 + i2)[1..] == i1[1..] + i2;
      assert (r1 + r2)[1..] == r1[1..] + r2;
      DropNullsConcat(i1[1..], r1[1..], i2, r2);
      assert (i1 + i2)[0] == i1[0] && (r1 + r2)[0] == r1[0];
      var a, b := DropNulls(i1[1..], r1[1..]), DropNulls(i2, r2);
      if Complete(r1[0]) {
        assert [i1[0]] + (a.0 + b.0) == ([i1[0]] + a.0) + b.0;
        assert [r1[0]] + (a.1 + b.1) == ([r1[0]] + a.1) + b.1;
      }
    }
  }

  /** Dropping again changes nothing. */
  lemma {:induction false} DropNullsIdempotent(index: seq<int>, rows: seq<Record>)
    requires |index| == |rows|
    ensures var kept := DropNulls(index, rows); DropNulls(kept.0, kept.1) == kept
    decreases |rows|
  {
    if rows != [] {
      DropNullsIdempotent(index[1..], rows[1..]);
    }
  }

  class DataFrameCleaner {
    var df: Frame

    constructor (df: Frame)
      ensures this.df == df
    {
      this.df := df;
    }

    method DropNaStep()
      requires |df.index| == |df.rows|
      modifies this
      ensures df == DropNa(old(df)) && |df.index| == |df.rows|
    {
      df := DropNa(df);
    }

    method ResetIndexStep()
      modifies this
      ensures df == ResetIndex(old(df))
    {
      df := ResetIndex(df);
    }

    /** `clean`: drop the incomplete rows in place, then renumber them 0..k-1. */
    method Clean() returns (r: Frame)
      requires |df.index| == |df.rows|
      modifies this
      ensures r == df && r == ResetIndex(DropNa(old(df)))
      ensures r.columns == old(df).columns && r.index == Range(|r.rows|)
      ensures forall i :: 0 <= i < |r.rows| ==> Complete(r.rows[i])
    {
      DropNaStep();
      ResetIndexStep();
      r := df;
    }
  }

  /** `FileParser(file).parse()`: `data` is what the chosen reader reads. */
  function Parse(filename: string, data: Frame): (r: Result<Frame>)
    requires |data.index| == |data.rows|
    ensures r.Ok? <==> GetReader(filename).Ok?
    ensures r.Ok? ==> r.value.index == Range(|r.value.rows|) && forall i :: 0 <= i < |r.value.rows| ==> Complete(r.value.rows[i])
  {
    match GetReader(filename)
    case Err(e) => Err(e)
    case Ok(_) => Ok(ResetIndex(DropNa(data)))
  }

  // ---------------------------------------------------------------------
  // Product-id rules
  // ---------------------------------------------------------------------

  datatype Rule = StartWith(prefix: string) | Length(length: nat) | Alphanumeric | Numeric | Unique

  predicate HasDuplicate(ids: seq<string>) {
    exists i, j :: 0 <= i < j < |ids| && ids[i] == ids[j]
  }

  /** What one rule does with the id column: `None` when it passes. */
  function Check(rule: Rule, ids: seq<string>): Option<Failure> {
    match rule
    case StartWith(p) =>
      if p != [] && !(forall i :: 0 <= i < |ids| ==> StartsWith(ids[i], p)) then Some(MustStartWith(p)) else None
    case Length(n) =>
      if !(forall i :: 0 <= i < |ids| ==> |ids[i]| == n) then Some(MustHaveLength(n)) else None
    case Alphanumeric =>
      if !(forall i :: 0 <= i < |ids| ==> IsAlnum(ids[i])) then Some(MustBeAlphanumeric) else None
    case Numeric =>
      if !(forall i :: 0 <= i < |ids| ==> IsDigits(ids[i])) then Some(MustBeNumeric) else None
    case Unique =>
      if HasDuplicate(ids) then Some(MustBeUnique) else None
  }

  /** An empty prefix accepts every list. */
  lemma EmptyPrefixAcceptsAll(ids: seq<string>)
    ensures Check(StartWith([]), ids) == None
  {
  }

  /** The first rule that fails, in order. */
  function FirstFailure(rules: seq<Rule>, ids: seq<string>): (f: Option<Failure>)
    ensures f.None? <==> forall k :: 0 <= k < |rules| ==> Check(rules[k], ids).None?
    ensures f.Some? ==> exists k :: (0 <= k < |rules| && Check(rules[k], ids) == f
      && forall m :: 0 <= m < k ==> Check(rules[m], ids).None?)
    decreases |rules|
  {
    if rules == [] then None
    else match Check(rules[0], ids)
      case Some(e) => Some(e)
      case None =>
        var f := FirstFailure(rules[1..], ids);
        assert forall k :: 1 <= k < |rules| ==> rules[k] == rules[1..][k - 1];
        if f.Some? then
          var k :| 0 <= k < |rules| - 1 && Check(rules[1..][k], ids) == f
            && forall m :: 0 <= m < k ==> Check(rules[1..][m], ids).None?;
          assert Check(rules[k + 1], ids) == f;
          f
        else f
  }

  const AmazonRules: seq<Rule> := [StartWith("B0"), Length(10), Alphanumeric]
  const FlipkartRules: seq<Rule> := [Length(16), Alphanumeric]
  const MyntraRules: seq<Rule> := [Length(9), Numeric]

  /** `PLATFORM_RULES.get(audit_platform)` */
  function PlatformRules(platform: string): Option<seq<Rule>> {
    if platform == "amazon" then Some(AmazonRules)
    else if platform == "flipkart" then Some(FlipkartRules)
    else if platform == "myntra" then Some(MyntraRules)
    else None
  }

  predicate AmazonId(id: string) {
    StartsWith(id, "B0") && |id| == 10 && IsAlnum(id)
  }

  /** Amazon ids pass exactly when every one starts with "B0", has ten characters and is alphanumeric. */
  lemma AmazonRulesMeaning(ids: seq<string>)
    ensures FirstFailure(AmazonRules, ids).None? <==> forall i :: 0 <= i < |ids| ==> AmazonId(ids[i])
  {
    assert Check(AmazonRules[0], ids).None? <==> forall i :: 0 <= i < |ids| ==> StartsWith(ids[i], "B0");
  }

  /** Flipkart ids pass exactly when every one has sixteen characters and is alphanumeric. */
  lemma FlipkartRulesMeaning(ids: seq<string>)
    ensures FirstFailure(FlipkartRules, ids).None? <==> forall i :: 0 <= i < |ids| ==> |ids[i]| == 16 && IsAlnum(ids[i])
  {
  }

  /** Myntra ids pass exactly when every one has nine characters, all digits. */
  lemma MyntraRulesMeaning(ids: seq<string>)
    ensures FirstFailure(MyntraRules, ids).None? <==> forall i :: 0 <= i < |ids| ==> |ids[i]| == 9 && IsDigits(ids[i])
  {
  }

  // ---------------------------------------------------------------------
  // ProductIdValidator.validate
  // ---------------------------------------------------------------------

  /** `str()` of a cell: pandas writes a missing cell as "nan". */
  function AsStr(c: Cell): string {
    match c
    case None => "nan"
    case Some(s) => s
  }

  /** `df[column].astype(str)` */
  function AsStrColumn(cells: seq<Cell>): (ids: seq<string>)
    ensures |ids| == |cells| && forall i :: 0 <= i < |cells| ==> ids[i] == AsStr(cells[i])
  {
    seq(|cells|, i requires 0 <= i < |cells| => AsStr(cells[i]))
  }

  /** The cells of a column, by position among the frame's columns. */
  function ColumnCells(df: Frame, k: nat): seq<Cell>
    requires k < |df.columns|
  {
    seq(|df.rows|, i requires 0 <= i < |df.rows| => if k < |df.rows[i]| then df.rows[i][k] else None)
  }

  /** The first column of that name. */
  function ColumnPosition(columns: seq<string>, name: string): (k: Option<nat>)
    ensures k.Some? ==> k.value < |columns| && columns[k.value] == name
    ensures k.None? <==> name !in columns
    decreases |columns|
  {
    if columns == [] then None
    else if columns[0] == name then Some(0)
    else
      var k := ColumnPosition(columns[1..], name);
      assert columns == [columns[0]] + columns[1..];
      if k.Some? then Some(k.value + 1) else None
  }

  /** `isnull().any()` on the column it is given. */
  predicate AnyNull(cells: seq<Cell>) {
    exists i :: 0 <= i < |cells| && cells[i].None?
  }

  /**
   * `validate` as written: the platform, then the column, then the null
   * check, the uniqueness check and the platform's rules, in that order,
   * all on the column after `astype(str)`.
   */
  function Validate(df: Frame, column: string, platform: string): Result<bool> {
    match PlatformRules(platform)
    case None => Err(UnsupportedPlatform(platform))
    case Some(rules) =>
      match ColumnPosition(df.columns, column)
      case None => Err(MissingColumn(column))
      case Some(k) =>
        var ids := AsStrColumn(ColumnCells(df, k));
        var strCells := seq(|ids|, i requires 0 <= i < |ids| => Some(ids[i]));
        if AnyNull(strCells) then Err(ContainsNulls(column))
        else if HasDuplicate(ids) then Err(MustBeUnique)
        else match FirstFailure(rules, ids)
          case Some(e) => Err(e)
          case None => Ok(true)
  }

  /**
   * `validate` passes exactly when the platform is known, the column
   * exists, the ids are unique and every platform rule holds; its errors
   * come in that order.
   */
  lemma ValidateMeaning(df: Frame, column: string, platform: string)
    ensures PlatformRules(platform).None? ==> Validate(df, column, platform) == Err(UnsupportedPlatform(platform))
    ensures PlatformRules(platform).Some? && column !in df.columns ==> Validate(df, column, platform) == Err(MissingColumn(column))
    ensures Validate(df, column, platform).Ok? <==>
      && PlatformRules(platform).Some?
      && column in df.columns
      && var ids := AsStrColumn(ColumnCells(df, ColumnPosition(df.columns, column).value));
         !HasDuplicate(ids) && FirstFailure(PlatformRules(platform).value, ids).None?
    ensures Validate(df, column, platform).Ok? ==> Validate(df, column, platform).value
  {
    if PlatformRules(platform).Some? && column in df.columns {
      var k := ColumnPosition(df.columns, column).value;
      var ids := AsStrColumn(ColumnCells(df, k));
      var strCells := seq(|ids|, i requires 0 <= i < |ids| => Some(ids[i]));
      assert !AnyNull(strCells);
    }
  }

  /** As written the null check never fires: after `astype(str)` no cell is missing. */
  lemma NullCheckNeverFires(df: Frame, column: string, platform: string)
    ensures !(Validate(df, column, platform).Err? && Validate(df, column, platform).error.ContainsNulls?)
  {
    ValidateMeaning(df, column, platform);
  }

  /** An Amazon upload with an empty id cell is rejected for its prefix, not for the null. */
  lemma MissingAmazonIdReportedAsPrefix()
    ensures Validate(Frame(["asin"], [0, 1], [[None], [Some("B0ABCDEFGH")]]), "asin", "amazon") == Err(MustStartWith("B0"))
  {
    var df := Frame(["asin"], [0, 1], [[None], [Some("B0ABCDEFGH")]]);
    assert ColumnPosition(df.columns, "asin") == Some(0);
    var ids := AsStrColumn(ColumnCells(df, 0));
    assert ids == ["nan", "B0ABCDEFGH"];
    assert !StartsWith(ids[0], "B0") by {
      assert ids[0][0] == 'n';
    }
    assert !HasDuplicate(ids) by {
      assert ids[0] != ids[1] by {
        assert |ids[0]| != |ids[1]|;
      }
    }
    var strCells := seq(|ids|, i requires 0 <= i < |ids| => Some(ids[i]));
    assert !AnyNull(strCells);
    assert Check(AmazonRules[0], ids) == Some(MustStartWith("B0"));
  }

  /** `validate` as evidently intended: the null check looks at the column before `astype(str)`. */
  function ValidateIntended(df: Frame, column: string, platform: string): Result<bool> {
    match PlatformRules(platform)
    case None => Err(UnsupportedPlatform(platform))
    case Some(rules) =>
      match ColumnPosition(df.columns, column)
      case None => Err(MissingColumn(column))
      case Some(k) =>
        var cells := ColumnCells(df, k);
        var ids := AsStrColumn(cells);
        if AnyNull(cells) then Err(ContainsNulls(column))
        else if HasDuplicate(ids) then Err(MustBeUnique)
        else match FirstFailure(rules, ids)
          case Some(e) => Err(e)
          case None => Ok(true)
  }

  /**
   * With the check in its intended place a missing id is reported as a
   * null, and a column without one is judged exactly as before.
   */
  lemma IntendedNullCheck(df: Frame, column: string, platform: string)
    requires PlatformRules(platform).Some? && column in df.columns
    ensures var cells := ColumnCells(df, ColumnPosition(df.columns, column).value);
      && (AnyNull(cells) ==> ValidateIntended(df, column, platform) == Err(ContainsNulls(column)))
      && (!AnyNull(cells) ==> ValidateIntended(df, column, platform) == Validate(df, column, platform))
  {
    var k := ColumnPosition(df.columns, column).value;
    var ids := AsStrColumn(ColumnCells(df, k));
    var strCells := seq(|ids|, i requires 0 <= i < |ids| => Some(ids[i]));
    assert !AnyNull(strCells);
  }
}
