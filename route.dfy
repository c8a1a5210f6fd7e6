/**
 * The `POST /api/import/excel` handler: reads the form fields, keeps the
 * sheets named Q1..Q4 (in any case), rejects the request at the first such
 * sheet that fails validation, tags every row with its sheet's section and
 * hands all rows to the importer in one call.
 */
module Route {
  import opened Wrappers
  import opened Text
  import opened ImportTypes
  import opened Validation
  import opened Importer

  /** One worksheet: its name and its rows as `sheet_to_json` yields them. */
  datatype Sheet = Sheet(name: string, rows: seq<Row>)

  /** The multipart form: the workbook (absent when no file was sent) and the three option fields. */
  datatype Request = Request(file: Option<seq<Sheet>>, status: Option<string>,
                             skipDuplicates: Option<string>, createSellers: Option<string>)

  /** The details sent back with a sheet that fails validation. */
  datatype SheetDetails = SheetDetails(errors: seq<string>, sheetName: string,
                                       foundColumns: set<string>, expectedColumns: seq<string>)

  datatype Response =
    | Failed(status: nat, message: string, details: Option<SheetDetails>)
    // sent as `{ data: message, message: result }`: the helper takes its data first
    | Completed(message: string, result: ImportResult)

  const ValidSections: seq<string> := ["Q1", "Q2", "Q3", "Q4"]
  const NoFileMessage := "No file provided"
  const NoSectionDataMessage := "No valid data found in sheets Q1, Q2, Q3, or Q4"
  const CompletedMessage := "Import completed"

  /** The column list shown to the user when a sheet is rejected. */
  const ExpectedColumns: seq<string> := ["Brand", "Model", "Category", "Owner", "Date Of Purchase", "Paid"]

  function InvalidSheetMessage(name: string): string
  {
    "Invalid format in sheet \"" + name + "\""
  }

  /** The import options the form fields produce: "draft" unless a status is given, flags only for the exact text "true". */
  function OptionsOf(req: Request): (o: ImportOptions)
    ensures SettingsOf(o).status == if req.status.Some? && req.status.value != "" then req.status.value else "draft"
    ensures SettingsOf(o).skipDuplicates <==> req.skipDuplicates == Some("true")
    ensures SettingsOf(o).createSellers <==> req.createSellers == Some("true")
  {
    ImportOptions(
      Some(if req.status.Some? && req.status.value != "" then req.status.value else "draft"),
      Some(req.skipDuplicates == Some("true")),
      Some(req.createSellers == Some("true")))
  }

  /** A sheet is imported when its upper-cased name is one of the four sections. */
  predicate IsSection(name: string)
  {
    Upper(name) in ValidSections
  }

  /** The sheet's rows, each with its `Section` column set (or overwritten) to the upper-cased sheet name. */
  function Tag(sheet: Sheet): (r: seq<Row>)
    ensures |r| == |sheet.rows|
    ensures forall j :: 0 <= j < |r| ==> r[j] == sheet.rows[j][SectionKey := Text(Upper(sheet.name))]
  {
    seq(|sheet.rows|, j requires 0 <= j < |sheet.rows| => sheet.rows[j][SectionKey := Text(Upper(sheet.name))])
  }

  /** `Object.keys(jsonData[0])`, or nothing for an empty sheet. */
  function FoundColumns(rows: seq<Row>): set<string>
  {
    if |rows| > 0 then rows[0].Keys else {}
  }

  /** Why the sheets were refused: the first section sheet that failed validation. */
  datatype SheetFailure = SheetFailure(sheet: string, errors: seq<string>, foundColumns: set<string>)

  /** Reference definition: the tagged rows of the section sheets, sheet after sheet in workbook order. */
  function SectionRows(sheets: seq<Sheet>): seq<Row>
  {
    if sheets == [] then []
    else
      var last := sheets[|sheets| - 1];
      SectionRows(sheets[..|sheets| - 1]) + (if IsSection(last.name) then Tag(last) else [])
  }

  /**
   * The rows gathered from the sheets in workbook order, or the first
   * section sheet that fails validation. When no sheet is refused, the
   * rows are exactly the section sheets' rows, in order, each tagged with
   * its sheet's section.
   */
  function Collect(sheets: seq<Sheet>): (r: Result<seq<Row>, SheetFailure>)
    ensures r.Success? ==> r.value == SectionRows(sheets)
  {
    if sheets == [] then Success([])
    else match Collect(sheets[..|sheets| - 1])
      case Failure(f) => Failure(f)
      case Success(rows) =>
        var last := sheets[|sheets| - 1];
        if !IsSection(last.name) then Success(rows)
        else
          var v := ValidationOf(last.rows);
          if !v.valid then Failure(SheetFailure(last.name, v.errors, FoundColumns(last.rows)))
          else Success(rows + Tag(last))
  }

  /** A section sheet that fails `validateExcelData`. */
  predicate FailingSection(sheet: Sheet)
  {
    IsSection(sheet.name) && !ValidationOf(sheet.rows).valid
  }

  /** The refusal reported for a failing sheet: its name, its validation errors and the columns found in it. */
  function Refusal(sheet: Sheet): SheetFailure
  {
    SheetFailure(sheet.name, ValidationOf(sheet.rows).errors, FoundColumns(sheet.rows))
  }

  /** Reference definition: the index of the first failing section sheet, or |sheets| when there is none. */
  function FirstFailing(sheets: seq<Sheet>): (k: nat)
    ensures k <= |sheets|
    ensures k < |sheets| ==> FailingSection(sheets[k])
    ensures forall j :: 0 <= j < |sheets| && FailingSection(sheets[j]) ==> k <= j
  {
    if sheets == [] then 0
    else
      var init := sheets[..|sheets| - 1];
      var k := FirstFailing(init);
      if k < |init| then k
      else if FailingSection(sheets[|sheets| - 1]) then |init|
      else |sheets|
  }

  /**
   * The sheets are refused exactly when some section sheet fails
   * validation, and then the refusal names the first such sheet, with its
   * validation errors and found columns.
   */
  lemma {:induction false} CollectRefusal(sheets: seq<Sheet>)
    ensures Collect(sheets).Failure? <==> exists k :: 0 <= k < |sheets| && FailingSection(sheets[k])
    ensures Collect(sheets).Failure? <==> FirstFailing(sheets) < |sheets|
    ensures Collect(sheets).Failure? ==> Collect(sheets).error == Refusal(sheets[FirstFailing(sheets)])
  {
    if sheets != [] {
      var init := sheets[..|sheets| - 1];
      CollectRefusal(init);
      if Collect(init).Failure? {
        assert sheets[FirstFailing(init)] == init[FirstFailing(init)];
      }
    }
  }

  /** Once a sheet has failed, the sheets after it change nothing: the request stops there. */
  lemma {:induction false} CollectFailureStops(sheets: seq<Sheet>, k: nat)
    requires k <= |sheets|
    requires Collect(sheets[..k]).Failure?
    ensures Collect(sheets) == Collect(sheets[..k])
  {
    if k < |sheets| {
      assert sheets[..|sheets| - 1][..k] == sheets[..k];
      CollectFailureStops(sheets[..|sheets| - 1], k);
    } else {
      assert sheets[..k] == sheets;
    }
  }

  /** A refused sheet is a section sheet of the workbook and comes with at least one validation error. */
  lemma {:induction false} CollectFailureExplained(sheets: seq<Sheet>)
    requires Collect(sheets).Failure?
    ensures Collect(sheets).error.errors != []
    ensures exists k :: 0 <= k < |sheets| && sheets[k].name == Collect(sheets).error.sheet && IsSection(sheets[k].name)
  {
    var init := sheets[..|sheets| - 1];
    if Collect(init).Failure? {
      CollectFailureExplained(init);
      var k :| 0 <= k < |init| && init[k].name == Collect(init).error.sheet && IsSection(init[k].name);
      assert sheets[k] == init[k];
    } else {
      assert sheets[|sheets| - 1].name == Collect(sheets).error.sheet;
    }
  }

  /** A sheet whose name is not a section is ignored wherever it stands. */
  lemma {:induction false} OtherSheetsIgnored(before: seq<Sheet>, other: Sheet, after: seq<Sheet>)
    requires !IsSection(other.name)
    ensures Collect(before + [other] + after) == Collect(before + after)
  {
    if after == [] {
      assert before + [other] + after == before + [other];
      assert (before + [other])[..|before|] == before;
      assert before + after == before;
    } else {
      var init := after[..|after| - 1];
      OtherSheetsIgnored(before, other, init);
      assert (before + [other] + after)[..|before + [other] + after| - 1] == before + [other] + init;
      assert (before + after)[..|before + after| - 1] == before + init;
      assert (before + [other] + after)[|before + [other] + after| - 1] == after[|after| - 1];
      assert (before + after)[|before + after| - 1] == after[|after| - 1];
    }
  }

  /** The number of rows in the section sheets. */
  function SectionRowCount(sheets: seq<Sheet>): nat
  {
    if sheets == [] then 0
    else
      var last := sheets[|sheets| - 1];
      SectionRowCount(sheets[..|sheets| - 1]) + (if IsSection(last.name) then |last.rows| else 0)
  }

  /** A cell naming one of the four sections. */
  predicate IsSectionCell(c: Cell)
  {
    c.Text? && c.s in ValidSections
  }

  /**
   * When every section sheet passes, the gathered rows are all the rows of
   * the section sheets, each tagged with a section Q1..Q4; a section sheet
   * with no rows never passes.
   */
  lemma {:induction false} CollectedRows(sheets: seq<Sheet>)
    requires Collect(sheets).Success?
    ensures |Collect(sheets).value| == SectionRowCount(sheets)
    ensures forall j :: 0 <= j < |Collect(sheets).value| ==>
      SectionKey in Collect(sheets).value[j] && IsSectionCell(Collect(sheets).value[j][SectionKey])
    ensures forall k :: 0 <= k < |sheets| && IsSection(sheets[k].name) ==> sheets[k].rows != []
  {
    if sheets != [] {
      var init := sheets[..|sheets| - 1];
      var last := sheets[|sheets| - 1];
      CollectedRows(init);
      if IsSection(last.name) {
        var prev := Collect(init).value;
        var rows := prev + Tag(last);
        assert Collect(sheets).value == rows;
        forall j | 0 <= j < |rows|
          ensures SectionKey in rows[j] && IsSectionCell(rows[j][SectionKey])
        {
          if j >= |prev| {
            assert rows[j] == Tag(last)[j - |prev|];
          }
        }
      }
      forall k | 0 <= k < |sheets| && IsSection(sheets[k].name)
        ensures sheets[k].rows != []
      {
        if k < |init| {
          assert sheets[k] == init[k];
        }
      }
    }
  }

  /** "No valid data" is reported exactly when the workbook has no sheet named Q1..Q4 and nothing else failed. */
  lemma NoDataOnlyWithoutSections(sheets: seq<Sheet>)
    requires Collect(sheets).Success?
    ensures Collect(sheets).value == [] <==> forall k :: 0 <= k < |sheets| ==> !IsSection(sheets[k].name)
  {
    CollectedRows(sheets);
    SectionRowCountZero(sheets);
  }

  lemma {:induction false} SectionRowCountZero(sheets: seq<Sheet>)
    requires forall k :: 0 <= k < |sheets| && IsSection(sheets[k].name) ==> sheets[k].rows != []
    ensures SectionRowCount(sheets) == 0 <==> forall k :: 0 <= k < |sheets| ==> !IsSection(sheets[k].name)
  {
    if sheets != [] {
      var init := sheets[..|sheets| - 1];
      assert forall k :: 0 <= k < |init| ==> init[k] == sheets[k];
      SectionRowCountZero(init);
    }
  }

  /** The hint lists every required column, but spells the date column differently from the importer, which therefore ignores a column named after the hint. */
  lemma ExpectedColumnsHint()
    ensures forall c :: c in RequiredColumns ==> c in ExpectedColumns
    ensures DateKey !in ExpectedColumns
    ensures "Date Of Purchase" in ExpectedColumns && "Date Of Purchase" != DateKey
  {
    assert ExpectedColumns[4] == "Date Of Purchase";
    assert "Date Of Purchase"[5] != DateKey[5];
    assert RequiredColumns == [ExpectedColumns[0], ExpectedColumns[1], ExpectedColumns[2], ExpectedColumns[3]];
    forall j | 0 <= j < |ExpectedColumns|
      ensures ExpectedColumns[j] != DateKey
    {
      assert |ExpectedColumns[j]| != |DateKey| || ExpectedColumns[j][5] != DateKey[5];
    }
  }

  /** The response and the stored products after one request. */
  datatype PostOutcome = PostOutcome(response: Response, products: seq<Product>)

  /** What one POST request answers, and the products stored afterwards; a refused request stores nothing. */
  function PostSpec(products: seq<Product>, profiles: seq<Profile>, req: Request, env: ImportEnv): (r: PostOutcome)
    ensures r.response.Failed? ==> r.response.status == 400 && r.products == products
    ensures req.file.None? ==> r.response == Failed(400, NoFileMessage, None)
    ensures r.response.Completed? <==> req.file.Some? && Collect(req.file.value).Success? && Collect(req.file.value).value != []
    ensures r.response.Completed? ==>
      r.response.message == CompletedMessage &&
      r.response.result == ImportSpec(products, profiles, Collect(req.file.value).value, OptionsOf(req), env).result &&
      r.products == ImportSpec(products, profiles, Collect(req.file.value).value, OptionsOf(req), env).products
  {
    if req.file.None? then PostOutcome(Failed(400, NoFileMessage, None), products)
    else match Collect(req.file.value)
      case Failure(f) =>
        PostOutcome(Failed(400, InvalidSheetMessage(f.sheet),
                           Some(SheetDetails(f.errors, f.sheet, f.foundColumns, ExpectedColumns))), products)
      case Success(rows) =>
        if rows == [] then PostOutcome(Failed(400, NoSectionDataMessage, None), products)
        else
          var run := ImportSpec(products, profiles, rows, OptionsOf(req), env);
          PostOutcome(Completed(CompletedMessage, run.result), run.products)
  }

  /**
   * The four answers of the endpoint, stated over the sheets themselves: no
   * file; the first failing section sheet, with its errors and the columns
   * expected; no section rows; otherwise an import of every section row
   * with the form's options.
   */
  lemma PostCases(products: seq<Product>, profiles: seq<Profile>, req: Request, env: ImportEnv)
    ensures req.file.None? ==> PostSpec(products, profiles, req, env) == PostOutcome(Failed(400, NoFileMessage, None), products)
    ensures req.file.Some? && FirstFailing(req.file.value) < |req.file.value| ==>
      var bad := req.file.value[FirstFailing(req.file.value)];
      PostSpec(products, profiles, req, env) ==
        PostOutcome(Failed(400, InvalidSheetMessage(bad.name),
                           Some(SheetDetails(ValidationOf(bad.rows).errors, bad.name, FoundColumns(bad.rows), ExpectedColumns))),
                    products)
    ensures req.file.Some? && FirstFailing(req.file.value) == |req.file.value| && SectionRows(req.file.value) == [] ==>
      PostSpec(products, profiles, req, env) == PostOutcome(Failed(400, NoSectionDataMessage, None), products)
    ensures req.file.Some? && FirstFailing(req.file.value) == |req.file.value| && SectionRows(req.file.value) != [] ==>
      var run := ImportSpec(products, profiles, SectionRows(req.file.value), OptionsOf(req), env);
      PostSpec(products, profiles, req, env) == PostOutcome(Completed(CompletedMessage, run.result), run.products)
  {
    if req.file.Some? {
      CollectRefusal(req.file.value);
    }
  }

  /**
   * A request either fails with status 400 and leaves the store untouched,
   * or completes with an import of every row of the section sheets; a
   * rejected sheet always comes with its validation errors, which are
   * never empty.
   */
  lemma PostAllOrNothing(products: seq<Product>, profiles: seq<Profile>, req: Request, env: ImportEnv)
    ensures var out := PostSpec(products, profiles, req, env);
      && (out.response.Failed? ==> out.response.status == 400 && out.products == products)
      && (out.response.Failed? && out.response.details.Some? ==> out.response.details.value.errors != [])
      && (out.response.Completed? ==>
            && req.file.Some? && Collect(req.file.value).Success?
            && out.response.result.imported + out.response.result.skipped == SectionRowCount(req.file.value) > 0
            && products <= out.products
            && |out.products| == |products| + out.response.result.imported)
  {
    if req.file.Some? && Collect(req.file.value).Failure? {
      CollectFailureExplained(req.file.value);
    }
    if req.file.Some? && Collect(req.file.value).Success? {
      var rows := Collect(req.file.value).value;
      CollectedRows(req.file.value);
      ImportCounts(products, profiles, rows, OptionsOf(req), env);
    }
  }

  method Post(store: Store, req: Request, env: ImportEnv) returns (response: Response)
    modifies store
    ensures PostOutcome(response, store.products) == PostSpec(old(store.products), old(store.profiles), req, env)
    ensures store.profiles == old(store.profiles)
  {
    var options := OptionsOf(req);
    if req.file.None? {
      return Failed(400, NoFileMessage, None);
    }
    var sheets := req.file.value;
    var allRows: seq<Row> := [];
    for k := 0 to |sheets|
      invariant Collect(sheets[..k]) == Success(allRows)
      invariant store.products == old(store.products) && store.profiles == old(store.profiles)
    {
      var sheet := sheets[k];
      assert sheets[..k + 1][..k] == sheets[..k];
      if !IsSection(sheet.name) {
        continue;
      }
      var validation := ValidateExcelData(sheet.rows);
      if !validation.valid {
        CollectFailureStops(sheets, k + 1);
        return Failed(400, InvalidSheetMessage(sheet.name),
                      Some(SheetDetails(validation.errors, sheet.name, FoundColumns(sheet.rows), ExpectedColumns)));
      }
      allRows := allRows + Tag(sheet);
    }
    assert sheets[..|sheets|] == sheets;
    if |allRows| == 0 {
      return Failed(400, NoSectionDataMessage, None);
    }
    var result := ImportProductsFromExcel(store, allRows, options, env);
    response := Completed(CompletedMessage, result);
  }
}
