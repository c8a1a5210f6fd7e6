/**
 * `importProductsFromExcel`: resolves every distinct owner name to a seller
 * once, then walks the rows in order, rejecting, skipping as a duplicate or
 * inserting each one, and accumulates counters and an error list.
 *
 * The store (the `profiles` and `products` tables) is the class `Store`;
 * the functions below are the specification the imperative method is
 * proved against, and the lemmas state what the source promises about a run.
 */
module Importer {
  import opened Wrappers
  import opened Text
  import opened ImportTypes
  import opened Sku
  import opened Dates

  // ---------------------------------------------------------------------
  // Seller resolution
  // ---------------------------------------------------------------------

  /** A case-insensitive name match without wildcards; a profile with no name never matches. */
  predicate NameMatches(p: Profile, name: string)
  {
    p.fullName.Some? && SameIgnoringCase(p.fullName.value, name)
  }

  /** The profiles whose full name matches, in directory order. */
  function Matching(profiles: seq<Profile>, name: string): seq<Profile>
  {
    if profiles == [] then []
    else
      var rest := Matching(profiles[1..], name);
      if NameMatches(profiles[0], name) then [profiles[0]] + rest else rest
  }

  /**
   * A lookup ending in `.single()`: it finds a profile exactly when a single
   * profile matches, and the one found is a profile of the directory whose
   * name matches; two profiles sharing a name make the owner unknown.
   */
  function LookupProfile(profiles: seq<Profile>, name: string): (r: Option<Profile>)
    ensures r.Some? <==> |Matching(profiles, name)| == 1
    ensures r.Some? ==> r.value in profiles && NameMatches(r.value, name)
  {
    MatchingSpec(profiles, name);
    var m := Matching(profiles, name);
    if |m| == 1 then assert m[0] in m; Some(m[0]) else None
  }

  /** `Matching` keeps exactly the profiles whose name matches. */
  lemma {:induction false} MatchingSpec(profiles: seq<Profile>, name: string)
    ensures |Matching(profiles, name)| <= |profiles|
    ensures forall p :: p in Matching(profiles, name) <==> p in profiles && NameMatches(p, name)
  {
    if profiles != [] {
      MatchingSpec(profiles[1..], name);
      assert profiles == [profiles[0]] + profiles[1..];
    }
  }

  /** The owner column value of a row, when it is truthy. */
  predicate HasOwner(row: Row, c: Cell)
  {
    Field(row, OwnerKey) == Some(c) && Truthy(Some(c))
  }

  predicate Distinct<T(==)>(s: seq<T>)
  {
    forall i, j :: 0 <= i < j < |s| ==> s[i] != s[j]
  }

  /** `[...new Set(rows.map(r => r.Owner).filter(Boolean))]`: distinct truthy owners in first-occurrence order. */
  function DistinctOwners(rows: seq<Row>): (r: seq<Cell>)
    ensures Distinct(r)
    ensures forall c :: c in r <==> exists k :: 0 <= k < |rows| && HasOwner(rows[k], c)
  {
    if rows == [] then []
    else
      var prev := DistinctOwners(rows[..|rows| - 1]);
      var owner := Field(rows[|rows| - 1], OwnerKey);
      assert forall k :: 0 <= k < |rows| - 1 ==> rows[..|rows| - 1][k] == rows[k];
      if Truthy(owner) && owner.value !in prev then prev + [owner.value] else prev
  }

  /** The index of the first row owned by `c`, or `|rows|` when no row is. */
  function FirstOwner(rows: seq<Row>, c: Cell): (r: nat)
    ensures r <= |rows|
    ensures r < |rows| ==> HasOwner(rows[r], c)
    ensures forall k :: 0 <= k < |rows| && HasOwner(rows[k], c) ==> r <= k
  {
    if rows == [] then 0
    else
      var init := rows[..|rows| - 1];
      assert forall k :: 0 <= k < |init| ==> init[k] == rows[k];
      var p := FirstOwner(init, c);
      if p < |init| then p else if HasOwner(rows[|rows| - 1], c) then |init| else |rows|
  }

  /** The distinct owners are listed in the order of their first rows. */
  lemma {:induction false} DistinctOwnersOrder(rows: seq<Row>)
    ensures forall j :: 0 <= j < |DistinctOwners(rows)| ==> FirstOwner(rows, DistinctOwners(rows)[j]) < |rows|
    ensures forall j, j' :: 0 <= j < j' < |DistinctOwners(rows)| ==>
      FirstOwner(rows, DistinctOwners(rows)[j]) < FirstOwner(rows, DistinctOwners(rows)[j'])
  {
    if rows != [] {
      var init := rows[..|rows| - 1];
      DistinctOwnersOrder(init);
      var prev := DistinctOwners(init);
      forall j | 0 <= j < |prev|
        ensures FirstOwner(rows, prev[j]) == FirstOwner(init, prev[j]) < |init|
      {
        assert FirstOwner(init, prev[j]) < |init|;
      }
      var owner := Field(rows[|rows| - 1], OwnerKey);
      if Truthy(owner) && owner.value !in prev {
        assert FirstOwner(init, owner.value) == |init|;
        assert FirstOwner(rows, owner.value) == |init|;
      }
    }
  }

  function NotFoundMessage(owner: Cell, createSellers: bool): string
  {
    "Seller \"" + Shown(owner) + "\" not found. " +
      (if createSellers then "Please create seller account first." else "Set createSellers: true to auto-create.")
  }

  /** The seller map and the row-0 errors that resolving `owners` produces. */
  datatype Resolution = Resolution(sellers: map<Cell, string>, errors: seq<RowError>)

  function Resolve(profiles: seq<Profile>, owners: seq<Cell>, createSellers: bool): (r: Resolution)
    ensures forall o :: o in r.sellers ==> o in owners
    ensures |r.errors| <= |owners|
  {
    if owners == [] then Resolution(map[], [])
    else
      var r := Resolve(profiles, owners[..|owners| - 1], createSellers);
      var owner := owners[|owners| - 1];
      match LookupProfile(profiles, Shown(owner))
      case Some(p) => Resolution(r.sellers[owner := p.id], r.errors)
      case None => Resolution(r.sellers, r.errors + [RowError(0, NotFoundMessage(owner, createSellers))])
  }

  /** Exactly the owners with a single matching profile are mapped, each to that profile's id. */
  lemma {:induction false} ResolveSellers(profiles: seq<Profile>, owners: seq<Cell>, createSellers: bool)
    ensures var r := Resolve(profiles, owners, createSellers);
      && (forall o :: o in r.sellers <==> o in owners && LookupProfile(profiles, Shown(o)).Some?)
      && (forall o :: o in r.sellers ==> r.sellers[o] == LookupProfile(profiles, Shown(o)).value.id)
  {
    if owners != [] {
      var init := owners[..|owners| - 1];
      ResolveSellers(profiles, init, createSellers);
      assert owners == init + [owners[|owners| - 1]];
    }
  }

  /** The owners no single profile matches, in order. */
  function Unresolved(profiles: seq<Profile>, owners: seq<Cell>): (r: seq<Cell>)
    ensures forall o :: o in r <==> o in owners && LookupProfile(profiles, Shown(o)).None?
  {
    if owners == [] then []
    else
      var prev := Unresolved(profiles, owners[..|owners| - 1]);
      var owner := owners[|owners| - 1];
      assert owners == owners[..|owners| - 1] + [owner];
      if LookupProfile(profiles, Shown(owner)).None? then prev + [owner] else prev
  }

  /** The errors of a resolution are the not-found messages of the unresolved owners, in order, all on row 0. */
  lemma {:induction false} ResolveErrors(profiles: seq<Profile>, owners: seq<Cell>, createSellers: bool)
    ensures var r := Resolve(profiles, owners, createSellers);
      var u := Unresolved(profiles, owners);
      && |r.errors| == |u|
      && forall j :: 0 <= j < |u| ==> r.errors[j] == RowError(0, NotFoundMessage(u[j], createSellers))
  {
    if owners != [] {
      var init, owner := owners[..|owners| - 1], owners[|owners| - 1];
      ResolveErrors(profiles, init, createSellers);
      var r, u := Resolve(profiles, init, createSellers), Unresolved(profiles, init);
      if LookupProfile(profiles, Shown(owner)).None? {
        assert Resolve(profiles, owners, createSellers).errors == r.errors + [RowError(0, NotFoundMessage(owner, createSellers))];
        assert Unresolved(profiles, owners) == u + [owner];
      } else {
        assert Resolve(profiles, owners, createSellers).errors == r.errors;
        assert Unresolved(profiles, owners) == u;
      }
    }
  }

  /** With distinct owners, each one is either mapped to a seller or unresolved, never both. */
  /** One step of a resolution: the last owner is either mapped to its profile's id or left unresolved. */
  lemma ResolveLast(profiles: seq<Profile>, owners: seq<Cell>, createSellers: bool)
    requires owners != []
    ensures var init, owner := owners[..|owners| - 1], owners[|owners| - 1];
      var m := Resolve(profiles, init, createSellers).sellers;
      var found := LookupProfile(profiles, Shown(owner));
      && (found.Some? ==>
            Resolve(profiles, owners, createSellers).sellers == m[owner := found.value.id]
            && Unresolved(profiles, owners) == Unresolved(profiles, init))
      && (found.None? ==>
            Resolve(profiles, owners, createSellers).sellers == m
            && Unresolved(profiles, owners) == Unresolved(profiles, init) + [owner])
  {
  }

  lemma {:induction false} ResolveCount(profiles: seq<Profile>, owners: seq<Cell>, createSellers: bool)
    requires Distinct(owners)
    ensures |Resolve(profiles, owners, createSellers).sellers| + |Unresolved(profiles, owners)| == |owners|
  {
    if owners != [] {
      var init := owners[..|owners| - 1];
      var owner := owners[|owners| - 1];
      assert Distinct(init);
      ResolveCount(profiles, init, createSellers);
      ResolveLast(profiles, owners, createSellers);
      var m := Resolve(profiles, init, createSellers).sellers;
      assert owner !in init by {
        assert forall k :: 0 <= k < |init| ==> init[k] == owners[k] != owner;
      }
      var found := LookupProfile(profiles, Shown(owner));
      if found.Some? {
        assert m[owner := found.value.id].Keys == m.Keys + {owner};
      }
    }
  }

  /** The `createSellers` flag changes only the wording of the row-0 errors: no seller is ever created. */
  lemma {:induction false} CreateSellersChangesOnlyWording(profiles: seq<Profile>, owners: seq<Cell>)
    ensures Resolve(profiles, owners, true).sellers == Resolve(profiles, owners, false).sellers
    ensures |Resolve(profiles, owners, true).errors| == |Resolve(profiles, owners, false).errors|
    ensures forall i :: 0 <= i < |Resolve(profiles, owners, true).errors| ==>
      Resolve(profiles, owners, true).errors[i].row == Resolve(profiles, owners, false).errors[i].row
  {
    if owners != [] {
      CreateSellersChangesOnlyWording(profiles, owners[..|owners| - 1]);
    }
  }

  // ---------------------------------------------------------------------
  // One row
  // ---------------------------------------------------------------------

  const MissingFieldsMessage := "Missing required fields: Brand and Model"
  const MissingOwnerMessage := "Missing Owner field"
  const InvalidTimeValue := "Invalid time value"

  function UnknownSellerMessage(owner: Cell): string
  {
    "Seller \"" + Shown(owner) + "\" not found in system"
  }

  function UnexpectedMessage(message: string): string
  {
    "Unexpected error: " + message
  }

  function DatabaseMessage(message: string): string
  {
    "Database error: " + message
  }

  /** `sellerMap.get(owner)` is truthy. */
  predicate Resolved(sellers: map<Cell, string>, owner: Cell)
  {
    owner in sellers && sellers[owner] != ""
  }

  /**
   * The `generateSKU(row.Brand, row.Model, row.Section)` call, including
   * the `TypeError` it throws when a part is not a string.
   */
  function SkuFor(brand: Cell, model: Cell, section: Option<Cell>, now: nat): (r: Result<string, string>)
    ensures r.Success? <==> brand.Text? && model.Text? && section.Some? && section.value.Text?
    ensures r.Success? ==> r.value == GenerateSku(brand.s, model.s, section.value.s, now)
  {
    if !brand.Text? then Failure("brand.substring is not a function")
    else if !model.Text? then Failure("model.substring is not a function")
    else match section
      case None => Failure("Cannot read properties of undefined (reading 'toUpperCase')")
      case Some(Text(s)) => Success(GenerateSku(brand.s, model.s, s, now))
      case Some(_) => Failure("section.toUpperCase is not a function")
  }

  /** `Number.parseFloat(String(row.Paid || 0)) || 0`. */
  function CostOf(paid: Option<Cell>, parseFloat: string -> Option<real>): (cost: real)
    ensures !Truthy(paid) ==> cost == 0.0
    ensures Truthy(paid) && paid.value.Num? ==> cost == paid.value.value
    ensures Truthy(paid) && !paid.value.Num? ==>
      cost == match parseFloat(Shown(paid.value)) case Some(x) => x case None => 0.0
  {
    if !Truthy(paid) then 0.0
    else match paid.value
      case Num(x, _) => x
      case _ => match parseFloat(Shown(paid.value)) case Some(x) => x case None => 0.0
  }

  /**
   * A boolean Paid cell costs nothing: `false` is falsy, and `String(true)`
   * is "true", in which `parseFloat` finds no number.
   */
  lemma BooleanPaidCostsNothing(parseFloat: string -> Option<real>)
    requires parseFloat("true") == None
    ensures CostOf(Some(Bool(false)), parseFloat) == 0.0
    ensures CostOf(Some(Bool(true)), parseFloat) == 0.0
  {
  }

  /** The selling price: a 50% markup on a positive cost, otherwise 0. */
  function BasePrice(cost: real): (price: real)
    ensures cost > 0.0 ==> price > cost && price - cost == cost / 2.0
    ensures cost <= 0.0 ==> price == 0.0
  {
    if cost > 0.0 then cost * 1.5 else 0.0
  }

  /** How many stored products carry this SKU. */
  function SkuCount(products: seq<Product>, sku: string): nat
  {
    if products == [] then 0
    else SkuCount(products[..|products| - 1], sku) + (if products[|products| - 1].sku == sku then 1 else 0)
  }

  function DateMs(d: Option<JsDate>): Option<int>
  {
    match d case Some(ValidDate(ms)) => Some(ms) case _ => None
  }

  /** The `productData` object built for an accepted row. */
  function NewProduct(row: Row, brand: string, model: string, section: string, sellerId: string, sku: string,
                      status: string, date: Option<JsDate>, cost: real, now: nat): (r: Product)
    ensures r.sellerId == sellerId && r.sku == sku && r.status == status
    ensures r.title == brand + " " + model
    ensures r.cost == cost && r.basePrice >= 0.0 && r.basePrice >= cost
    ensures Truthy(Field(row, CategoryKey)) ==> r.category == row[CategoryKey]
    ensures !Truthy(Field(row, CategoryKey)) ==> r.category == Text("Uncategorized")
    ensures r.description == (if Truthy(Field(row, CategoryKey)) then Shown(row[CategoryKey]) else "Camera") + " - " + brand + " " + model
    ensures r.metadata.section == section && r.metadata.brand == brand && r.metadata.model == model
    ensures r.metadata.importedAt == now
    ensures r.metadata.dateOfPurchase.Some? <==> date.Some? && date.value.ValidDate?
    ensures date.Some? && date.value.ValidDate? ==> r.metadata.dateOfPurchase == Some(date.value.ms)
  {
    var category := Field(row, CategoryKey);
    Product(
      sellerId,
      brand + " " + model,
      (if Truthy(category) then Shown(category.value) else "Camera") + " - " + brand + " " + model,
      if Truthy(category) then category.value else Text("Uncategorized"),
      BasePrice(cost),
      cost,
      sku,
      status,
      Metadata(section, brand, model, DateMs(date), now))
  }

  /** What happens to one row. */
  datatype RowOutcome =
    | Rejected(message: string)      // a validation `continue`, with an error entry
    | Duplicate                      // skipped silently
    | Inserted(product: Product)
    | InsertFailed(message: string)  // "Database error: ..."
    | Crashed(message: string)       // "Unexpected error: ..." from the catch block

  /** An outcome that the import reports with an entry in its error list. */
  predicate Logged(o: RowOutcome)
  {
    o.Rejected? || o.InsertFailed? || o.Crashed?
  }

  /** The outcome of row i (0-based) against the current products and the seller map. */
  function RowOutcomeOf(products: seq<Product>, sellers: map<Cell, string>, row: Row, i: nat,
                        st: Settings, env: ImportEnv): (r: RowOutcome)
    ensures r.Rejected? <==> !Accepted(sellers, row)
    ensures r.Duplicate? ==> st.skipDuplicates
    ensures r.InsertFailed? ==> env.insertError(i).Some?
    ensures r.Inserted? ==> env.insertError(i).None?
  {
    var brand, model, owner := Field(row, BrandKey), Field(row, ModelKey), Field(row, OwnerKey);
    if !Truthy(brand) || !Truthy(model) then Rejected(MissingFieldsMessage)
    else if !Truthy(owner) then Rejected(MissingOwnerMessage)
    else if !Resolved(sellers, owner.value) then Rejected(UnknownSellerMessage(owner.value))
    else match SkuFor(brand.value, model.value, Field(row, SectionKey), env.clock(i))
      case Failure(e) => Crashed(UnexpectedMessage(e))
      case Success(sku) =>
        if st.skipDuplicates && SkuCount(products, sku) == 1 then Duplicate
        else
          var date := ParseDateField(Field(row, DateKey), env.parseDate);
          if date == Some(InvalidDate) then Crashed(UnexpectedMessage(InvalidTimeValue))
          else
            var product := NewProduct(row, brand.value.s, model.value.s, Field(row, SectionKey).value.s,
              sellers[owner.value], sku, st.status, date, CostOf(Field(row, PaidKey), env.parseFloat), env.clock(i));
            match env.insertError(i)
            case Some(e) => InsertFailed(DatabaseMessage(e))
            case None => Inserted(product)
  }

  /**
   * A row is rejected, with a message naming the first check it fails,
   * exactly when Brand or Model is missing, Owner is missing, or the owner
   * was not resolved to a seller.
   */
  lemma RowRejection(products: seq<Product>, sellers: map<Cell, string>, row: Row, i: nat, st: Settings, env: ImportEnv)
    ensures var o := RowOutcomeOf(products, sellers, row, i, st, env);
      var brand, model, owner := Field(row, BrandKey), Field(row, ModelKey), Field(row, OwnerKey);
      && (!Truthy(brand) || !Truthy(model) ==> o == Rejected(MissingFieldsMessage))
      && (Truthy(brand) && Truthy(model) && !Truthy(owner) ==> o == Rejected(MissingOwnerMessage))
      && (Truthy(brand) && Truthy(model) && Truthy(owner) && !Resolved(sellers, owner.value) ==>
            o == Rejected(UnknownSellerMessage(owner.value)))
      && (o.Rejected? <==> !Truthy(brand) || !Truthy(model) || !Truthy(owner) || !Resolved(sellers, owner.value))
  {
  }

  /**
   * A row is skipped as a duplicate only under `skipDuplicates`, and only
   * when exactly one stored product already carries the SKU generated for it.
   */
  lemma RowDuplicate(products: seq<Product>, sellers: map<Cell, string>, row: Row, i: nat, st: Settings, env: ImportEnv)
    requires RowOutcomeOf(products, sellers, row, i, st, env).Duplicate?
    ensures var brand, model, section := Field(row, BrandKey), Field(row, ModelKey), Field(row, SectionKey);
      && st.skipDuplicates
      && brand.Some? && brand.value.Text? && model.Some? && model.value.Text? && section.Some? && section.value.Text?
      && SkuCount(products, GenerateSku(brand.value.s, model.value.s, section.value.s, env.clock(i))) == 1
  {
    var brand, model, owner := Field(row, BrandKey), Field(row, ModelKey), Field(row, OwnerKey);
    assert Truthy(brand) && Truthy(model) && Truthy(owner) && Resolved(sellers, owner.value);
    var r := SkuFor(brand.value, model.value, Field(row, SectionKey), env.clock(i));
    assert r.Success? && st.skipDuplicates && SkuCount(products, r.value) == 1;
  }

  /** The row passes the three validation checks of the loop body. */
  predicate Accepted(sellers: map<Cell, string>, row: Row)
  {
    var brand, model, owner := Field(row, BrandKey), Field(row, ModelKey), Field(row, OwnerKey);
    Truthy(brand) && Truthy(model) && Truthy(owner) && Resolved(sellers, owner.value)
  }

  /** Conversely, an accepted row whose SKU one stored product already carries is skipped as a duplicate under `skipDuplicates`. */
  lemma RowIsDuplicate(products: seq<Product>, sellers: map<Cell, string>, row: Row, i: nat, st: Settings, env: ImportEnv)
    requires Accepted(sellers, row) && st.skipDuplicates
    requires var brand, model, section := Field(row, BrandKey), Field(row, ModelKey), Field(row, SectionKey);
      && brand.value.Text? && model.value.Text? && section.Some? && section.value.Text?
      && SkuCount(products, GenerateSku(brand.value.s, model.value.s, section.value.s, env.clock(i))) == 1
    ensures RowOutcomeOf(products, sellers, row, i, st, env) == Duplicate
  {
  }

  /**
   * A row crashes into the catch block, whose entry reads "Unexpected
   * error: " and the thrown message, when Brand, Model or Section is not
   * text (the `TypeError` of the SKU generator), or else when its date is
   * out of range ("Invalid time value"); and an accepted row that is not a
   * duplicate does crash in each of these cases.
   */
  lemma RowCrash(products: seq<Product>, sellers: map<Cell, string>, row: Row, i: nat, st: Settings, env: ImportEnv)
    ensures var o := RowOutcomeOf(products, sellers, row, i, st, env);
      var brand, model, section := Field(row, BrandKey), Field(row, ModelKey), Field(row, SectionKey);
      && (o.Crashed? ==>
            Accepted(sellers, row)
            && (|| !brand.value.Text? || !model.value.Text? || section.None? || !section.value.Text?
                || ParseDateField(Field(row, DateKey), env.parseDate) == Some(InvalidDate)))
      && (Accepted(sellers, row) ==>
            var sku := SkuFor(brand.value, model.value, section, env.clock(i));
            && (sku.Failure? ==> o == Crashed(UnexpectedMessage(sku.error)))
            && (sku.Success? && !(st.skipDuplicates && SkuCount(products, sku.value) == 1)
                && ParseDateField(Field(row, DateKey), env.parseDate) == Some(InvalidDate) ==>
                  o == Crashed(UnexpectedMessage(InvalidTimeValue))))
  {
  }

  /** A failed insert reports the store's message, prefixed with "Database error: ". */
  lemma RowInsertFailed(products: seq<Product>, sellers: map<Cell, string>, row: Row, i: nat, st: Settings, env: ImportEnv)
    requires RowOutcomeOf(products, sellers, row, i, st, env).InsertFailed?
    ensures env.insertError(i).Some?
    ensures RowOutcomeOf(products, sellers, row, i, st, env).message == DatabaseMessage(env.insertError(i).value)
  {
  }

  /**
   * An inserted product belongs to the row's resolved seller, is titled
   * "Brand Model", carries the generated SKU (not one a single stored
   * product already has, under `skipDuplicates`), the parsed cost with its
   * 50% markup, the configured status and the row's category or
   * "Uncategorized".
   */
  lemma RowInserted(products: seq<Product>, sellers: map<Cell, string>, row: Row, i: nat, st: Settings, env: ImportEnv)
    requires RowOutcomeOf(products, sellers, row, i, st, env).Inserted?
    ensures var brand, model, owner, section := Field(row, BrandKey), Field(row, ModelKey), Field(row, OwnerKey), Field(row, SectionKey);
      && env.insertError(i).None?
      && brand.Some? && brand.value.Text? && model.Some? && model.value.Text? && section.Some? && section.value.Text?
      && owner.Some? && owner.value in sellers
      && var p := RowOutcomeOf(products, sellers, row, i, st, env).product;
      && p.sellerId == sellers[owner.value] && p.sellerId != ""
      && p.title == brand.value.s + " " + model.value.s
      && p.sku == GenerateSku(brand.value.s, model.value.s, section.value.s, env.clock(i))
      && !(st.skipDuplicates && SkuCount(products, p.sku) == 1)
      && p.cost == CostOf(Field(row, PaidKey), env.parseFloat)
      && p.basePrice == BasePrice(p.cost)
      && p.status == st.status
      && (Truthy(Field(row, CategoryKey)) ==> p.category == row[CategoryKey])
      && (!Truthy(Field(row, CategoryKey)) ==> p.category == Text("Uncategorized"))
      && p.description == (if Truthy(Field(row, CategoryKey)) then Shown(row[CategoryKey]) else "Camera") + " - " + p.title
      && p.metadata.section == section.value.s
      && p.metadata.brand == brand.value.s && p.metadata.model == model.value.s
      && p.metadata.importedAt == env.clock(i)
      && var date := ParseDateField(Field(row, DateKey), env.parseDate);
      && (date.Some? ==> date.value.ValidDate? && p.metadata.dateOfPurchase == Some(date.value.ms))
      && (date.None? ==> p.metadata.dateOfPurchase.None?)
  {
  }

  // ---------------------------------------------------------------------
  // The run over all rows
  // ---------------------------------------------------------------------

  datatype ImportState = ImportState(products: seq<Product>, imported: nat, skipped: nat, errors: seq<RowError>)

  /** The effect of one outcome on the counters, the error list and the store, for spreadsheet row `rowNumber`. */
  function Apply(s: ImportState, o: RowOutcome, rowNumber: int): (r: ImportState)
    ensures r.products == if o.Inserted? then s.products + [o.product] else s.products
    ensures o.Inserted? ==> r == s.(products := s.products + [o.product], imported := s.imported + 1)
    ensures o.Duplicate? ==> r == s.(skipped := s.skipped + 1)
    ensures Logged(o) ==> r == s.(skipped := s.skipped + 1, errors := s.errors + [RowError(rowNumber, o.message)])
  {
    match o
    case Rejected(m) => s.(skipped := s.skipped + 1, errors := s.errors + [RowError(rowNumber, m)])
    case Duplicate => s.(skipped := s.skipped + 1)
    case Inserted(p) => s.(products := s.products + [p], imported := s.imported + 1)
    case InsertFailed(m) => s.(skipped := s.skipped + 1, errors := s.errors + [RowError(rowNumber, m)])
    case Crashed(m) => s.(skipped := s.skipped + 1, errors := s.errors + [RowError(rowNumber, m)])
  }

  /** How one row is handled, given the products stored so far, the row and its 0-based index. */
  type RowHandler = (seq<Product>, Row, nat) -> RowOutcome

  /** The row handler of an import with the given seller map, settings and environment. */
  function HandlerOf(sellers: map<Cell, string>, st: Settings, env: ImportEnv): RowHandler
  {
    (products: seq<Product>, row: Row, i: nat) => RowOutcomeOf(products, sellers, row, i, st, env)
  }

  /** The state after the first k rows; row i is spreadsheet row i + 2 (row 1 is the header). */
  function Run(start: ImportState, handle: RowHandler, rows: seq<Row>, k: nat): (r: ImportState)
    requires k <= |rows|
    ensures start.products <= r.products && start.errors <= r.errors
    ensures r.imported >= start.imported && r.skipped >= start.skipped
  {
    if k == 0 then start
    else
      var s := Run(start, handle, rows, k - 1);
      Apply(s, handle(s.products, rows[k - 1], k - 1), k + 1)
  }

  /**
   * Every row is counted exactly once, the store only grows, by one product
   * per imported row, and the error list only grows, by at most one entry
   * per skipped row; by exactly one when no row is a silent duplicate.
   */
  lemma {:induction false} RunAccounting(start: ImportState, handle: RowHandler, rows: seq<Row>, k: nat)
    requires k <= |rows|
    ensures var s := Run(start, handle, rows, k);
      && s.imported + s.skipped == start.imported + start.skipped + k
      && |s.products| - |start.products| == s.imported - start.imported
      && |s.errors| - |start.errors| <= s.skipped - start.skipped
      && ((forall ps, row, i :: !handle(ps, row, i).Duplicate?) ==> |s.errors| - |start.errors| == s.skipped - start.skipped)
  {
    if k > 0 {
      RunAccounting(start, handle, rows, k - 1);
    }
  }

  /** The outcome of row i (0-based) in a run, against the products stored by the rows before it. */
  function OutcomeAt(start: ImportState, handle: RowHandler, rows: seq<Row>, i: nat): RowOutcome
    requires i < |rows|
  {
    handle(Run(start, handle, rows, i).products, rows[i], i)
  }

  /** The outcomes of the first k rows of a run, in row order. */
  function Outcomes(start: ImportState, handle: RowHandler, rows: seq<Row>, k: nat): (r: seq<RowOutcome>)
    requires k <= |rows|
    ensures |r| == k
  {
    if k == 0 then [] else Outcomes(start, handle, rows, k - 1) + [OutcomeAt(start, handle, rows, k - 1)]
  }

  /** Reference definition: one entry per outcome that reports an error, with its spreadsheet row (index + 2) and message. */
  function ErrorsOf(outcomes: seq<RowOutcome>): seq<RowError>
  {
    if outcomes == [] then []
    else
      var o := outcomes[|outcomes| - 1];
      ErrorsOf(outcomes[..|outcomes| - 1]) + (if Logged(o) then [RowError(|outcomes| + 1, o.message)] else [])
  }

  /** A run appends exactly the row errors of its outcomes to the errors it starts with. */
  lemma {:induction false} RunErrors(start: ImportState, handle: RowHandler, rows: seq<Row>, k: nat)
    requires k <= |rows|
    ensures Run(start, handle, rows, k).errors == start.errors + ErrorsOf(Outcomes(start, handle, rows, k))
  {
    if k > 0 {
      RunErrors(start, handle, rows, k - 1);
      var prev, o := Outcomes(start, handle, rows, k - 1), OutcomeAt(start, handle, rows, k - 1);
      assert (prev + [o])[..k - 1] == prev;
      assert ErrorsOf(prev + [o]) == ErrorsOf(prev) + (if Logged(o) then [RowError(k + 1, o.message)] else []);
    }
  }

  /** Reference definition: the products of the inserted outcomes, in row order. */
  function ProductsOf(outcomes: seq<RowOutcome>): seq<Product>
  {
    if outcomes == [] then []
    else
      var o := outcomes[|outcomes| - 1];
      ProductsOf(outcomes[..|outcomes| - 1]) + (if o.Inserted? then [o.product] else [])
  }

  /** A run appends exactly the products of its inserted outcomes, in row order, to the store it starts with. */
  lemma {:induction false} RunProducts(start: ImportState, handle: RowHandler, rows: seq<Row>, k: nat)
    requires k <= |rows|
    ensures Run(start, handle, rows, k).products == start.products + ProductsOf(Outcomes(start, handle, rows, k))
  {
    if k > 0 {
      RunProducts(start, handle, rows, k - 1);
      var prev, o := Outcomes(start, handle, rows, k - 1), OutcomeAt(start, handle, rows, k - 1);
      assert (prev + [o])[..k - 1] == prev;
      assert ProductsOf(prev + [o]) == ProductsOf(prev) + (if o.Inserted? then [o.product] else []);
    }
  }

  /** A product is added exactly when some outcome inserted it. */
  lemma {:induction false} ProductsOfMembers(outcomes: seq<RowOutcome>)
    ensures forall p :: p in ProductsOf(outcomes) <==>
      exists i :: 0 <= i < |outcomes| && outcomes[i].Inserted? && outcomes[i].product == p
  {
    if outcomes != [] {
      var init := outcomes[..|outcomes| - 1];
      ProductsOfMembers(init);
      assert forall i :: 0 <= i < |init| ==> init[i] == outcomes[i];
      var o := outcomes[|outcomes| - 1];
      forall p | p in ProductsOf(outcomes)
        ensures exists i :: 0 <= i < |outcomes| && outcomes[i].Inserted? && outcomes[i].product == p
      {
        if p !in ProductsOf(init) {
          assert outcomes[|outcomes| - 1] == o;
        }
      }
    }
  }

  /** An entry for spreadsheet row n (2 .. |outcomes|+1) carries the message of outcome n-2, which reports an error. */
  lemma {:induction false} ErrorsOfEntries(outcomes: seq<RowOutcome>)
    ensures forall j :: 0 <= j < |ErrorsOf(outcomes)| ==>
      && 2 <= ErrorsOf(outcomes)[j].row <= |outcomes| + 1
      && Logged(outcomes[ErrorsOf(outcomes)[j].row - 2])
      && ErrorsOf(outcomes)[j].error == outcomes[ErrorsOf(outcomes)[j].row - 2].message
  {
    if outcomes != [] {
      var init := outcomes[..|outcomes| - 1];
      ErrorsOfEntries(init);
      assert forall j :: 0 <= j < |ErrorsOf(init)| ==> ErrorsOf(outcomes)[j] == ErrorsOf(init)[j];
      assert forall i :: 0 <= i < |init| ==> init[i] == outcomes[i];
    }
  }

  /** Every outcome that reports an error has its entry. */
  lemma {:induction false} ErrorsOfComplete(outcomes: seq<RowOutcome>)
    ensures forall i :: 0 <= i < |outcomes| && Logged(outcomes[i]) ==>
      RowError(i + 2, outcomes[i].message) in ErrorsOf(outcomes)
  {
    if outcomes != [] {
      var init := outcomes[..|outcomes| - 1];
      ErrorsOfComplete(init);
      assert forall i :: 0 <= i < |init| ==> init[i] == outcomes[i];
    }
  }

  /** Row numbers strictly increase, so no row has two entries. */
  lemma {:induction false} ErrorsOfIncreasing(outcomes: seq<RowOutcome>)
    ensures forall j :: 0 <= j < |ErrorsOf(outcomes)| ==> ErrorsOf(outcomes)[j].row <= |outcomes| + 1
    ensures forall j, j' :: 0 <= j < j' < |ErrorsOf(outcomes)| ==> ErrorsOf(outcomes)[j].row < ErrorsOf(outcomes)[j'].row
  {
    if outcomes != [] {
      var init := outcomes[..|outcomes| - 1];
      ErrorsOfIncreasing(init);
      assert forall j :: 0 <= j < |ErrorsOf(init)| ==> ErrorsOf(outcomes)[j] == ErrorsOf(init)[j];
    }
  }

  /**
   * The row errors of a sequence of outcomes are exactly one entry per
   * outcome that reports an error, numbered with its spreadsheet row and
   * carrying its message, in strictly increasing row order.
   */
  lemma ErrorsOfLayout(outcomes: seq<RowOutcome>)
    ensures var e := ErrorsOf(outcomes);
      && (forall j :: 0 <= j < |e| ==>
            && 2 <= e[j].row <= |outcomes| + 1
            && Logged(outcomes[e[j].row - 2])
            && e[j].error == outcomes[e[j].row - 2].message)
      && (forall i :: 0 <= i < |outcomes| && Logged(outcomes[i]) ==> RowError(i + 2, outcomes[i].message) in e)
      && (forall j, j' :: 0 <= j < j' < |e| ==> e[j].row < e[j'].row)
  {
    ErrorsOfEntries(outcomes);
    ErrorsOfComplete(outcomes);
    ErrorsOfIncreasing(outcomes);
  }

  /** When every insertion carries a seller id from `ids`, so does every product the run adds. */
  lemma {:induction false} RunSellerIds(start: ImportState, handle: RowHandler, rows: seq<Row>, k: nat, ids: set<string>)
    requires k <= |rows|
    requires forall ps, row, i :: handle(ps, row, i).Inserted? ==> handle(ps, row, i).product.sellerId in ids
    ensures var s := Run(start, handle, rows, k);
      && |start.products| <= |s.products|
      && forall j :: |start.products| <= j < |s.products| ==> s.products[j].sellerId in ids
  {
    if k > 0 {
      RunSellerIds(start, handle, rows, k - 1, ids);
    }
  }

  /** Under the import's handler, an inserted product's seller id is a non-empty value of the seller map. */
  lemma InsertedSeller(products: seq<Product>, sellers: map<Cell, string>, row: Row, i: nat, st: Settings, env: ImportEnv)
    requires RowOutcomeOf(products, sellers, row, i, st, env).Inserted?
    ensures var id := RowOutcomeOf(products, sellers, row, i, st, env).product.sellerId;
      id != "" && id in sellers.Values
  {
    RowInserted(products, sellers, row, i, st, env);
    assert sellers[Field(row, OwnerKey).value] in sellers.Values;
  }

  /** Without `skipDuplicates`, no row is a silent duplicate. */
  lemma NoDuplicatesWithoutSkipping(sellers: map<Cell, string>, st: Settings, env: ImportEnv)
    requires !st.skipDuplicates
    ensures forall ps, row, i :: !HandlerOf(sellers, st, env)(ps, row, i).Duplicate?
  {
    forall ps, row, i
      ensures !HandlerOf(sellers, st, env)(ps, row, i).Duplicate?
    {
      if RowOutcomeOf(ps, sellers, row, i, st, env).Duplicate? {
        RowDuplicate(ps, sellers, row, i, st, env);
      }
    }
  }

  // ---------------------------------------------------------------------
  // The whole import
  // ---------------------------------------------------------------------

  /** The result of one import and the products the store holds afterwards. */
  datatype ImportRun = ImportRun(result: ImportResult, products: seq<Product>)

  function ImportSpec(products: seq<Product>, profiles: seq<Profile>, rows: seq<Row>,
                      options: ImportOptions, env: ImportEnv): (r: ImportRun)
    ensures r.result.success <==> r.result.imported > 0
    ensures products <= r.products
  {
    var st := SettingsOf(options);
    var res := Resolve(profiles, DistinctOwners(rows), st.createSellers);
    var s := Run(ImportState(products, 0, 0, res.errors), HandlerOf(res.sellers, st, env), rows, |rows|);
    ImportRun(ImportResult(s.imported > 0, s.imported, s.skipped, s.errors), s.products)
  }

  /**
   * Counting over a whole import: every row is counted once, success means
   * something was imported, and the store grows by exactly the imported
   * products; without `skipDuplicates`, every skipped row has its own error
   * entry besides the row-0 entries of unresolved owners.
   */
  lemma ImportCounts(products: seq<Product>, profiles: seq<Profile>, rows: seq<Row>,
                     options: ImportOptions, env: ImportEnv)
    ensures var run := ImportSpec(products, profiles, rows, options, env);
      && run.result.imported + run.result.skipped == |rows|
      && (run.result.success <==> run.result.imported > 0)
      && products <= run.products
      && |run.products| == |products| + run.result.imported
      && (!SettingsOf(options).skipDuplicates ==>
            |run.result.errors| == |Unresolved(profiles, DistinctOwners(rows))| + run.result.skipped)
  {
    var st := SettingsOf(options);
    var owners := DistinctOwners(rows);
    var res := Resolve(profiles, owners, st.createSellers);
    ResolveErrors(profiles, owners, st.createSellers);
    if !st.skipDuplicates {
      NoDuplicatesWithoutSkipping(res.sellers, st, env);
    }
    RunAccounting(ImportState(products, 0, 0, res.errors), HandlerOf(res.sellers, st, env), rows, |rows|);
  }

  /**
   * The error list of an import starts with one row-0 entry per owner that
   * no single profile matches, followed by the row errors of the run over
   * all rows: one entry per row that is rejected, fails to insert or
   * crashes, with its spreadsheet row and message, in row order
   * (`ErrorsOfLayout`).
   */
  lemma ImportErrorLayout(products: seq<Product>, profiles: seq<Profile>, rows: seq<Row>,
                          options: ImportOptions, env: ImportEnv)
    ensures var errors := ImportSpec(products, profiles, rows, options, env).result.errors;
      var st := SettingsOf(options);
      var owners := DistinctOwners(rows);
      var res := Resolve(profiles, owners, st.createSellers);
      var start, handle := ImportState(products, 0, 0, res.errors), HandlerOf(res.sellers, st, env);
      var u := Unresolved(profiles, owners);
      && |u| + |res.sellers| == |owners|
      && |u| <= |errors|
      && (forall j :: 0 <= j < |u| ==> errors[j] == RowError(0, NotFoundMessage(u[j], st.createSellers)))
      && errors[|u|..] == ErrorsOf(Outcomes(start, handle, rows, |rows|))
  {
    var st := SettingsOf(options);
    var owners := DistinctOwners(rows);
    var res := Resolve(profiles, owners, st.createSellers);
    var start := ImportState(products, 0, 0, res.errors);
    var handle := HandlerOf(res.sellers, st, env);
    ResolveErrors(profiles, owners, st.createSellers);
    ResolveCount(profiles, owners, st.createSellers);
    RunErrors(start, handle, rows, |rows|);
  }

  /** Some named profile of the directory has this id. */
  predicate IsProfileId(profiles: seq<Profile>, id: string)
  {
    exists p :: p in profiles && p.id == id && p.fullName.Some?
  }

  /** Every product an import adds is owned by a named profile of the directory. */
  lemma ImportSellerOwnership(products: seq<Product>, profiles: seq<Profile>, rows: seq<Row>,
                              options: ImportOptions, env: ImportEnv)
    ensures var run := ImportSpec(products, profiles, rows, options, env);
      && |products| <= |run.products|
      && forall j :: |products| <= j < |run.products| ==> IsProfileId(profiles, run.products[j].sellerId)
  {
    var st := SettingsOf(options);
    var owners := DistinctOwners(rows);
    var res := Resolve(profiles, owners, st.createSellers);
    var start := ImportState(products, 0, 0, res.errors);
    var handle := HandlerOf(res.sellers, st, env);
    forall ps, row, i | handle(ps, row, i).Inserted?
      ensures handle(ps, row, i).product.sellerId in res.sellers.Values
    {
      InsertedSeller(ps, res.sellers, row, i, st, env);
    }
    ResolveSellers(profiles, owners, st.createSellers);
    RunSellerIds(start, handle, rows, |rows|, res.sellers.Values);
    var s := Run(start, handle, rows, |rows|);
    assert ImportSpec(products, profiles, rows, options, env).products == s.products;
    forall j | |products| <= j < |s.products|
      ensures IsProfileId(profiles, s.products[j].sellerId)
    {
      assert s.products[j].sellerId in res.sellers.Values;
      var o :| o in res.sellers && res.sellers[o] == s.products[j].sellerId;
      var p := LookupProfile(profiles, Shown(o)).value;
      assert p in profiles && p.id == s.products[j].sellerId && p.fullName.Some?;
    }
  }

  // ---------------------------------------------------------------------
  // The store and the imperative importer
  // ---------------------------------------------------------------------

  /** The `profiles` and `products` tables, as far as the importer touches them. */
  class Store {
    var profiles: seq<Profile>
    var products: seq<Product>

    constructor (profiles: seq<Profile>, products: seq<Product>)
      ensures this.profiles == profiles && this.products == products
    {
      this.profiles := profiles;
      this.products := products;
    }

    /** `from("profiles").select(...).ilike("full_name", name).single()`. */
    function FindSeller(name: string): Option<Profile>
      reads this
    {
      LookupProfile(profiles, name)
    }

    /** `from("products").select("id").eq("sku", sku).single()` returns data. */
    predicate SkuTaken(sku: string)
      reads this
    {
      SkuCount(products, sku) == 1
    }

    /** `from("products").insert(product)`, whose outcome the store decides (`failure`). */
    method Insert(product: Product, failure: Option<string>) returns (error: Option<string>)
      modifies this
      ensures error == failure
      ensures products == if failure.None? then old(products) + [product] else old(products)
      ensures profiles == old(profiles)
    {
      error := failure;
      if failure.None? {
        products := products + [product];
      }
    }
  }

  /** Step 1 of the import: look every distinct owner up once, recording a seller id or a row-0 error. */
  method ResolveOwners(store: Store, owners: seq<Cell>, createSellers: bool)
    returns (sellers: map<Cell, string>, errors: seq<RowError>)
    ensures Resolution(sellers, errors) == Resolve(store.profiles, owners, createSellers)
  {
    sellers, errors := map[], [];
    for k := 0 to |owners|
      invariant Resolution(sellers, errors) == Resolve(store.profiles, owners[..k], createSellers)
    {
      var ownerName := owners[k];
      assert owners[..k + 1][..k] == owners[..k];
      var existingProfile := store.FindSeller(Shown(ownerName));
      if existingProfile.Some? {
        sellers := sellers[ownerName := existingProfile.value.id];
      } else if createSellers {
        errors := errors + [RowError(0, NotFoundMessage(ownerName, true))];
      } else {
        errors := errors + [RowError(0, NotFoundMessage(ownerName, false))];
      }
    }
    assert owners[..|owners|] == owners;
  }

  /** The body of the row loop: validate, build and insert row i (spreadsheet row i + 2), updating the counters. */
  method ImportRow(store: Store, sellerMap: map<Cell, string>, row: Row, i: nat, st: Settings, env: ImportEnv,
                   result: ImportResult)
    returns (next: ImportResult)
    modifies store
    ensures ImportState(store.products, next.imported, next.skipped, next.errors) ==
      Apply(ImportState(old(store.products), result.imported, result.skipped, result.errors),
            RowOutcomeOf(old(store.products), sellerMap, row, i, st, env), i + 2)
    ensures next.success == result.success
    ensures store.profiles == old(store.profiles)
  {
    next := result;
    var rowNumber := i + 2;
    var brand, model, owner := Field(row, BrandKey), Field(row, ModelKey), Field(row, OwnerKey);
    if !Truthy(brand) || !Truthy(model) {
      return next.(errors := next.errors + [RowError(rowNumber, MissingFieldsMessage)], skipped := next.skipped + 1);
    }
    if !Truthy(owner) {
      return next.(errors := next.errors + [RowError(rowNumber, MissingOwnerMessage)], skipped := next.skipped + 1);
    }
    if !Resolved(sellerMap, owner.value) {
      return next.(errors := next.errors + [RowError(rowNumber, UnknownSellerMessage(owner.value))],
                   skipped := next.skipped + 1);
    }
    var sellerId := sellerMap[owner.value];
    var sku := SkuFor(brand.value, model.value, Field(row, SectionKey), env.clock(i));
    if sku.Failure? {
      return next.(errors := next.errors + [RowError(rowNumber, UnexpectedMessage(sku.error))],
                   skipped := next.skipped + 1);
    }
    if st.skipDuplicates {
      var existing := store.SkuTaken(sku.value);
      if existing {
        return next.(skipped := next.skipped + 1);
      }
    }
    var purchaseDate := ParseDateField(Field(row, DateKey), env.parseDate);
    if purchaseDate == Some(InvalidDate) {
      return next.(errors := next.errors + [RowError(rowNumber, UnexpectedMessage(InvalidTimeValue))],
                   skipped := next.skipped + 1);
    }
    var costPaid := CostOf(Field(row, PaidKey), env.parseFloat);
    var productData := NewProduct(row, brand.value.s, model.value.s, Field(row, SectionKey).value.s,
                                  sellerId, sku.value, st.status, purchaseDate, costPaid, env.clock(i));
    assert RowOutcomeOf(old(store.products), sellerMap, row, i, st, env) ==
      if env.insertError(i).Some? then InsertFailed(DatabaseMessage(env.insertError(i).value)) else Inserted(productData);
    var error := store.Insert(productData, env.insertError(i));
    if error.Some? {
      assert store.products == old(store.products);
      next := next.(errors := next.errors + [RowError(rowNumber, DatabaseMessage(error.value))], skipped := next.skipped + 1);
    } else {
      assert store.products == old(store.products) + [productData];
      next := next.(imported := next.imported + 1);
    }
  }

  method ImportProductsFromExcel(store: Store, rows: seq<Row>, options: ImportOptions, env: ImportEnv)
    returns (result: ImportResult)
    modifies store
    ensures ImportRun(result, store.products) == ImportSpec(old(store.products), old(store.profiles), rows, options, env)
    ensures store.profiles == old(store.profiles)
    ensures result.imported + result.skipped == |rows|
    ensures result.success <==> result.imported > 0
    ensures old(store.products) <= store.products
    ensures |store.products| == |old(store.products)| + result.imported
  {
    var st := SettingsOf(options);
    var sellerMap, resolveErrors := ResolveOwners(store, DistinctOwners(rows), st.createSellers);
    result := ImportResult(false, 0, 0, resolveErrors);
    ghost var start := ImportState(store.products, 0, 0, result.errors);
    ghost var handle := HandlerOf(sellerMap, st, env);
    for i := 0 to |rows|
      invariant Run(start, handle, rows, i) == ImportState(store.products, result.imported, result.skipped, result.errors)
      invariant store.profiles == old(store.profiles)
    {
      result := ImportRow(store, sellerMap, rows[i], i, st, env, result);
    }
    result := result.(success := result.imported > 0);
    RunAccounting(start, handle, rows, |rows|);
  }
}
