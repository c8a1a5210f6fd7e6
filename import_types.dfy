/**
 * The data shapes of the spreadsheet importer: spreadsheet cells and rows,
 * the product and seller records of the store, the import options and
 * the import result.
 */
module ImportTypes {
  import opened Wrappers

  /** The largest magnitude of a valid JavaScript time value (10^8 days). */
  const MaxTimeMs: int := 8640000000000000

  /** A time value a JavaScript `Date` can hold. */
  type TimeValue = ms: int | -MaxTimeMs <= ms <= MaxTimeMs

  /** A JavaScript `Date`: a millisecond time value, or the invalid date (time value NaN). */
  datatype JsDate = ValidDate(ms: TimeValue) | InvalidDate

  /**
   * One cell value as the spreadsheet reader hands it over: a string, a
   * number, a boolean or a date object. `shown` is the value's `String(...)`
   * rendering, used wherever the code interpolates it into text.
   */
  datatype Cell =
    | Text(s: string)
    | Num(value: real, shown: string)
    | Bool(b: bool)
    | DateCell(date: JsDate, shown: string)

  /** A row object produced from a sheet: column header -> cell. A header absent from the map reads as `undefined`. */
  type Row = map<string, Cell>

  const BrandKey := "Brand"
  const ModelKey := "Model"
  const CategoryKey := "Category"
  const OwnerKey := "Owner"
  const DateKey := "Date of Purchase"
  const PaidKey := "Paid"
  const SectionKey := "Section"

  /** `row[key]`: the cell, or `None` for `undefined`. */
  function Field(row: Row, key: string): (r: Option<Cell>)
    ensures r.Some? <==> key in row
    ensures r.Some? ==> r.value == row[key]
  {
    if key in row then Some(row[key]) else None
  }

  /** JavaScript truthiness of a cell value: `undefined`, "", 0 and `false` are falsy; a date object is truthy. */
  predicate Truthy(v: Option<Cell>)
  {
    match v
    case None => false
    case Some(Text(s)) => s != ""
    case Some(Num(x, _)) => x != 0.0
    case Some(Bool(b)) => b
    case Some(DateCell(_, _)) => true
  }

  /** The text a template literal `${v}` produces for a cell. */
  function Shown(c: Cell): string
  {
    match c
    case Text(s) => s
    case Num(_, shown) => shown
    case Bool(b) => if b then "true" else "false"
    case DateCell(_, shown) => shown
  }

  /** A profile of the seller directory (`profiles` table): id, full name (nullable) and email. */
  datatype Profile = Profile(id: string, fullName: Option<string>, email: string)

  /** The `metadata` object stored with an imported product. */
  datatype Metadata = Metadata(
    section: string,
    brand: string,
    model: string,
    dateOfPurchase: Option<int>,  // milliseconds of `toISOString()`, or undefined
    importedAt: int               // milliseconds of the import instant
  )

  /** The product record the importer inserts. The store assigns the id. */
  datatype Product = Product(
    sellerId: string,
    title: string,
    description: string,
    category: Cell,
    basePrice: real,
    cost: real,
    sku: string,
    status: string,
    metadata: Metadata
  )

  /** One entry of the result's error list; row 0 marks an error that concerns no row. */
  datatype RowError = RowError(row: int, error: string)

  /** The import result: success flag, counters and the ordered error list. */
  datatype ImportResult = ImportResult(success: bool, imported: nat, skipped: nat, errors: seq<RowError>)

  /** The import options; `None` stands for an option left undefined. */
  datatype ImportOptions = ImportOptions(
    defaultStatus: Option<string>,
    skipDuplicates: Option<bool>,
    createSellers: Option<bool>
  )

  /** The options after defaults are applied. */
  datatype Settings = Settings(status: string, skipDuplicates: bool, createSellers: bool)

  /** Destructuring with defaults: status "draft", skipDuplicates true, createSellers false. */
  function SettingsOf(o: ImportOptions): (s: Settings)
    ensures o.defaultStatus == None ==> s.status == "draft"
    ensures o.defaultStatus.Some? ==> s.status == o.defaultStatus.value
    ensures s.skipDuplicates <==> o.skipDuplicates != Some(false)
    ensures s.createSellers <==> o.createSellers == Some(true)
  {
    Settings(
      match o.defaultStatus case Some(st) => st case None => "draft",
      match o.skipDuplicates case Some(b) => b case None => true,
      match o.createSellers case Some(b) => b case None => false)
  }

  /**
   * What the importer receives from its environment and cannot compute:
   * the clock reading (`Date.now()`) while row i is processed, the store's
   * answer to the insert of row i (an error message, or success), the
   * engine's `new Date(string)` and `Number.parseFloat` (None for NaN).
   */
  datatype ImportEnv = ImportEnv(
    clock: nat -> nat,
    insertError: nat -> Option<string>,
    parseDate: string -> JsDate,
    parseFloat: string -> Option<real>
  )
}
