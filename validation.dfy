/** `validateExcelData`: the required-column check run on each accepted sheet. */
module Validation {
  import opened ImportTypes

  const RequiredColumns: seq<string> := [BrandKey, ModelKey, CategoryKey, OwnerKey]
  const NoDataMessage := "No data found in Excel file"

  datatype ValidationResult = ValidationResult(valid: bool, errors: seq<string>)

  function MissingColumnMessage(col: string): string
  {
    "Missing required column: " + col
  }

  /** One message per column of `cols`, in order, that `row` lacks. */
  function MissingColumns(row: Row, cols: seq<string>): (r: seq<string>)
    ensures |r| <= |cols|
    ensures r == [] <==> forall i :: 0 <= i < |cols| ==> cols[i] in row
  {
    if cols == [] then []
    else
      var last := cols[|cols| - 1];
      MissingColumns(row, cols[..|cols| - 1]) + (if last in row then [] else [MissingColumnMessage(last)])
  }

  /** The messages are exactly those of the columns of `cols` that `row` lacks. */
  lemma {:induction false} MissingColumnsMembers(row: Row, cols: seq<string>)
    ensures forall m :: m in MissingColumns(row, cols) <==>
      exists i :: 0 <= i < |cols| && cols[i] !in row && m == MissingColumnMessage(cols[i])
  {
    if cols != [] {
      var init := cols[..|cols| - 1];
      MissingColumnsMembers(row, init);
      assert forall i :: 0 <= i < |init| ==> init[i] == cols[i];
    }
  }

  /** The messages keep the order of the columns: checking `a + b` reports `a`'s missing columns, then `b`'s. */
  lemma {:induction false} MissingColumnsAppend(row: Row, a: seq<string>, b: seq<string>)
    ensures MissingColumns(row, a + b) == MissingColumns(row, a) + MissingColumns(row, b)
  {
    if b == [] {
      assert a + b == a;
    } else {
      assert (a + b)[..|a + b| - 1] == a + b[..|b| - 1];
      MissingColumnsAppend(row, a, b[..|b| - 1]);
    }
  }

  /** The message for one column, if `row` lacks it. */
  function ColumnErrors(row: Row, col: string): seq<string>
  {
    if col in row then [] else [MissingColumnMessage(col)]
  }

  /** What `validateExcelData` returns for a list of rows. */
  function ValidationOf(rows: seq<Row>): (v: ValidationResult)
    ensures rows == [] ==> v == ValidationResult(false, [NoDataMessage])
    ensures rows != [] ==> (v.valid <==> forall i :: 0 <= i < |RequiredColumns| ==> RequiredColumns[i] in rows[0])
    ensures v.valid <==> v.errors == []
  {
    if rows == [] then ValidationResult(false, [NoDataMessage])
    else var errors := MissingColumns(rows[0], RequiredColumns);
      ValidationResult(errors == [], errors)
  }

  /** Only the first row's columns matter. */
  lemma OnlyFirstRowChecked(rows: seq<Row>, rows': seq<Row>)
    requires rows != [] && rows' != [] && rows[0].Keys == rows'[0].Keys
    ensures ValidationOf(rows) == ValidationOf(rows')
  {
    assert forall cols: seq<string> :: MissingColumns(rows[0], cols) == MissingColumns(rows'[0], cols) by {
      forall cols: seq<string> ensures MissingColumns(rows[0], cols) == MissingColumns(rows'[0], cols) {
        MissingColumnsDependsOnKeys(rows[0], rows'[0], cols);
      }
    }
  }

  lemma {:induction false} MissingColumnsDependsOnKeys(a: Row, b: Row, cols: seq<string>)
    requires a.Keys == b.Keys
    ensures MissingColumns(a, cols) == MissingColumns(b, cols)
  {
    if cols != [] {
      MissingColumnsDependsOnKeys(a, b, cols[..|cols| - 1]);
    }
  }

  /** A non-empty sheet's errors are the messages for Brand, Model, Category and Owner, each present exactly when the first row lacks it, in that order. */
  lemma ValidationErrors(rows: seq<Row>)
    ensures rows != [] ==>
      ValidationOf(rows).errors ==
        ColumnErrors(rows[0], BrandKey) + ColumnErrors(rows[0], ModelKey) +
        ColumnErrors(rows[0], CategoryKey) + ColumnErrors(rows[0], OwnerKey)
  {
    if rows != [] {
      var r := rows[0];
      MissingColumnsAppend(r, [BrandKey, ModelKey, CategoryKey], [OwnerKey]);
      MissingColumnsAppend(r, [BrandKey, ModelKey], [CategoryKey]);
      MissingColumnsAppend(r, [BrandKey], [ModelKey]);
      assert [BrandKey, ModelKey, CategoryKey] + [OwnerKey] == RequiredColumns;
      assert [BrandKey, ModelKey] + [CategoryKey] == [BrandKey, ModelKey, CategoryKey];
      assert [BrandKey] + [ModelKey] == [BrandKey, ModelKey];
      assert forall c :: MissingColumns(r, [c]) == ColumnErrors(r, c) by {
        forall c ensures MissingColumns(r, [c]) == ColumnErrors(r, c) {
          assert [c][..0] == [];
        }
      }
    }
  }

  /** A first row lacking every required column yields exactly the four messages, in column order. */
  lemma AllMissing(rows: seq<Row>)
    requires rows != [] && rows[0] == map[]
    ensures ValidationOf(rows) == ValidationResult(false, [
      "Missing required column: Brand", "Missing required column: Model",
      "Missing required column: Category", "Missing required column: Owner"])
  {
    var cols, r := RequiredColumns, rows[0];
    assert cols[..1][..0] == [];
    assert MissingColumns(r, cols[..1]) == [MissingColumnMessage(BrandKey)];
    assert cols[..2][..1] == cols[..1];
    assert MissingColumns(r, cols[..2]) == [MissingColumnMessage(BrandKey), MissingColumnMessage(ModelKey)];
    assert cols[..3][..2] == cols[..2];
    assert MissingColumns(r, cols[..3]) ==
      [MissingColumnMessage(BrandKey), MissingColumnMessage(ModelKey), MissingColumnMessage(CategoryKey)];
    assert cols[..4][..3] == cols[..3];
    assert cols[..4] == cols;
    assert MissingColumnMessage(BrandKey) == "Missing required column: Brand";
    assert MissingColumnMessage(ModelKey) == "Missing required column: Model";
    assert MissingColumnMessage(CategoryKey) == "Missing required column: Category";
    assert MissingColumnMessage(OwnerKey) == "Missing required column: Owner";
  }

  /** The loop of `validateExcelData`: one error pushed per required column missing from the first row. */
  method ValidateExcelData(rows: seq<Row>) returns (v: ValidationResult)
    ensures v == ValidationOf(rows)
    ensures rows == [] ==> !v.valid && v.errors == [NoDataMessage]
    ensures rows != [] ==> (v.valid <==> forall i :: 0 <= i < |RequiredColumns| ==> RequiredColumns[i] in rows[0])
    ensures rows != [] ==>
      v.errors ==
        ColumnErrors(rows[0], BrandKey) + ColumnErrors(rows[0], ModelKey) +
        ColumnErrors(rows[0], CategoryKey) + ColumnErrors(rows[0], OwnerKey)
  {
    var errors: seq<string> := [];
    if rows == [] {
      errors := errors + [NoDataMessage];
      return ValidationResult(false, errors);
    }
    var firstRow := rows[0];
    for k := 0 to |RequiredColumns|
      invariant errors == MissingColumns(firstRow, RequiredColumns[..k])
    {
      var col := RequiredColumns[k];
      assert RequiredColumns[..k + 1][..k] == RequiredColumns[..k];
      if col !in firstRow {
        errors := errors + [MissingColumnMessage(col)];
      }
    }
    assert RequiredColumns[..|RequiredColumns|] == RequiredColumns;
    v := ValidationResult(|errors| == 0, errors);
    ValidationErrors(rows);
  }
}
