# Spreadsheet import, permissions and platform adapters

This project models four parts of the admin tool of a camera reseller:

- **The spreadsheet import engine.** It resolves the distinct owner names of all rows to seller profiles. Then it walks the rows in order. Each row is rejected with a message, skipped as a duplicate SKU, inserted as a product, or counted as failed. The engine builds SKUs from brand, model, section and clock. It coerces purchase dates from spreadsheet serial numbers. It validates the required columns of a sheet.
- **The import endpoint.** `POST /api/import/excel` reads the form fields and keeps only the sheets named Q1–Q4. It refuses the whole request at the first such sheet that fails validation. Every row is tagged with its section, and all rows go to the engine in one call.
- **The role permission table.** It has 21 permission strings, the lists for the `admin` and `seller` roles, and the `has*Permission` checks.
- **The sales-platform adapters.** This covers the base adapter's constructor and `fullSync`, the Etsy, Medusa and Aukro stubs, and the factory that builds them from environment variables.

Layout:
- `wrappers.dfy`: Option and Result.
- `text.dfy`: the ASCII string operations the source uses.
- `import_types.dfy`: spreadsheet cells and rows, the product and profile records, import options, and the environment oracles.
- `sku.dfy`: SKU generation.
- `dates.dfy`: date parsing.
- `validation.dfy`: column validation.
- `importer.dfy`: the engine.
- `route.dfy`: the endpoint.
- `permissions.dfy`: the permission table.
- `platform_types.dfy`, `base_adapter.dfy`, `etsy.dfy`, `medusa.dfy`, `aukro.dfy`, `factory.dfy`: the adapters.

How the pieces are modelled:
- **The database.** The engine and the endpoint change the `profiles` and `products` tables step by step. These are the class `Importer.Store`, whose methods have `modifies` clauses.
- **The engine and the endpoint.** Both are imperative methods, `Importer.ImportProductsFromExcel` and `Route.Post`. Each is proved against a specification function of the old store (`ImportSpec`, `PostSpec`), and the lemmas state the source's promises about those functions.
- **The row fold.** It is generic over a row handler, so the accounting lemmas hold whatever each row does. The row logic itself is `RowOutcomeOf`, with one lemma per outcome.
- **Spreadsheet cells.** A cell is text, a number (with its `String()` rendering), a boolean or a date, and a row is a map from column names. A date holds a time value within the JavaScript range of ±8.64e15 ms. A missing column is an absent key. This gives the engine's `catch` block its real triggers:
  - `generateSKU` throws a `TypeError` when brand, model or section is not a string;
  - `toISOString` throws a `RangeError` when a serial number lies outside the JavaScript date range.
- **The environment.** The clock (`Date.now()`, one reading per row) is a parameter, and so is the store's answer to an insert. So are the engine's date-string parser and `parseFloat`.
- **Adapters.** Adapters never change after construction, so they are values: a `Base` record with a datatype per platform, and a sum type `Factory.Adapter` of the three. `fullSync` takes the outcomes of its two platform calls as parameters. It returns the sync result together with the calls it made.

Behaviour worth knowing:
- **Error wording.** The not-found message for an owner depends on `createSellers`, and neither wording creates a seller. With `createSellers` set, the message reads "Please create seller account first"; without it, it reads "Set createSellers: true to auto-create" (`NotFoundMessage`, `CreateSellersChangesOnlyWording`).
- **Unresolvable owners.** An owner no profile matches produces two error entries: the row-0 entry from owner resolution, and a `Seller "…" not found in system` entry for each of its rows (`ImportCounts`, `RowRejection`).
- **Duplicate skipping through the endpoint.** The endpoint passes `skipDuplicates` only as the exact form value `"true"`. Through the endpoint, duplicate skipping is therefore off unless requested, although the engine's own default is on (`Route.OptionsOf`).
- **Completion envelope.** The endpoint calls `apiResponse.success("Import completed", result)`, but the helper's parameters are `(data, message)`. The JSON body therefore carries the text "Import completed" under `data` and the import result under `message`. `Route.Completed(message, result)` names the two values by meaning, not by the JSON field that carries them.

## Model

| member | source | states |
|---|---|---|
| Text.Upper | src/lib/import/excel-importer.ts:189 | upper-casing keeps the length and maps each character through ASCII upper-casing |
| Text.Filter | src/lib/import/excel-importer.ts:190 | stripping keeps only accepted characters, each drawn from the input, and never lengthens it |
| Text.FilterMembers | src/lib/import/excel-importer.ts:190 | a character survives exactly when it occurs in the input and is accepted |
| Text.FilterAppend | src/lib/import/excel-importer.ts:190 | stripping keeps the input's order: it distributes over concatenation |
| Text.Suffix | src/lib/import/excel-importer.ts:196 | `slice(-n)` keeps n characters, or the whole string when shorter |
| Text.SuffixIsTail | src/lib/import/excel-importer.ts:196 | the result is the tail of the string: the string is some prefix followed by it |
| Text.DecimalRoundTrip | src/lib/import/excel-importer.ts:196 | reading back the decimal digits of `toString()` gives the number |
| Sku.BrandCode | src/lib/import/excel-importer.ts:187-190 | the brand code has at most 3 characters, all upper-case letters |
| Sku.ModelCode | src/lib/import/excel-importer.ts:191-194 | the model code has at most 4 characters, all upper-case letters or digits |
| Sku.TimestampTail | src/lib/import/excel-importer.ts:196 | the clock tail has at most 6 characters, all digits |
| Sku.TimestampTailValue | src/lib/import/excel-importer.ts:196 | the tail denotes the clock reading modulo 10^6, and has six digits once the clock reads at least 100000 |
| Sku.GenerateSku | src/lib/import/excel-importer.ts:186-199 | a SKU is the upper-cased section plus between 3 and 16 more characters (three dashes, at most 3 + 4 + 6 code characters) |
| Sku.SkuLayout | src/lib/import/excel-importer.ts:186-199 | every SKU reads back: the first dash ends the brand code, the next the model code, the last dash starts the clock tail, and the upper-cased section lies between |
| Sku.FourPartsLayout | src/lib/import/excel-importer.ts:198 | in any `a-b-c-d` whose first, second and last parts have no dash, the dashes recover all four parts |
| Sku.SkuDeterminesParts | src/lib/import/excel-importer.ts:186-199 | two SKUs are equal exactly when brand codes, model codes, upper-cased sections and clock tails all agree |
| Sku.CanonExample | src/lib/import/excel-importer.ts:186-199 | Canon / AE-1 / Q2 gives "CAN-AE1-Q2-" followed by the clock tail |
| Dates.ExcelEpochIsFirstOf1900 | src/lib/import/excel-importer.ts:215 | the epoch constant is 1900-01-01 in days since 1970 |
| Dates.TimeClip | src/lib/import/excel-importer.ts:217 | a date is valid exactly when the time value's magnitude is at most 8.64e15 |
| Dates.SerialToDate | src/lib/import/excel-importer.ts:213-218 | a whole serial n that gives a valid date gives midnight of 1900-01-01 plus n-2 days |
| Dates.ParseDateField | src/lib/import/excel-importer.ts:204-231 | falsy values give null; a date is returned as is; a number is a serial date; a non-empty string gives its parse when that is a valid date, and null otherwise; `true` gives the date with time value 1, as `new Date(true)` does |
| Dates.SerialRoundTrip | src/lib/import/excel-importer.ts:213-218 | a whole serial maps to epoch + (n-2) days and converts back to n |
| Dates.SerialsOneDayApart | src/lib/import/excel-importer.ts:216-217 | consecutive serials are exactly one day apart |
| Dates.SerialOneIsLastDayOf1899 | src/lib/import/excel-importer.ts:214-217 | serial 1 is 1899-12-31 |
| Dates.SerialSixtyOneIsFirstOfMarch1900 | src/lib/import/excel-importer.ts:216 | serial 61 is 1900-03-01, where the two-day offset makes serials agree with the calendar |
| Dates.FalsyDatesAreNull | src/lib/import/excel-importer.ts:205 | serial 0, the empty string, `false` and a missing value give null |
| Validation.MissingColumns | src/lib/import/excel-importer.ts:247-251 | no messages exactly when the row has every listed column; at most one message per column |
| Validation.MissingColumnsMembers | src/lib/import/excel-importer.ts:247-251 | the messages are exactly "Missing required column: " and each listed column the row lacks |
| Validation.MissingColumnsAppend | src/lib/import/excel-importer.ts:247-251 | the messages follow the column order: checking `a + b` reports `a`'s missing columns, then `b`'s |
| Validation.ValidationOf | src/lib/import/excel-importer.ts:236-257 | no rows gives "No data found in Excel file"; otherwise valid exactly when the first row has all four columns, and valid exactly when the error list is empty |
| Validation.OnlyFirstRowChecked | src/lib/import/excel-importer.ts:245-251 | rows whose first rows have the same columns validate alike |
| Validation.ValidationErrors | src/lib/import/excel-importer.ts:236-257 | a non-empty sheet's errors are the messages for Brand, Model, Category and Owner, each present exactly when the first row lacks it, in that order |
| Validation.AllMissing | src/lib/import/excel-importer.ts:244-251 | a first row with no columns gives the four messages, in column order |
| Validation.ValidateExcelData | src/lib/import/excel-importer.ts:236-257 | the loop returns `ValidationOf(rows)`: the no-data error for no rows, otherwise one message per required column missing from the first row, in column order |
| Importer.MatchingSpec | src/lib/import/excel-importer.ts:54-58 | the matches are exactly the profiles whose name equals the owner ignoring case |
| Importer.LookupProfile | src/lib/import/excel-importer.ts:54-58 | the lookup finds a profile exactly when a single profile matches, and the one found is a directory profile whose name matches |
| Importer.DistinctOwners | src/lib/import/excel-importer.ts:47 | the owners are distinct and are exactly the truthy Owner values of the rows |
| Importer.FirstOwner | src/lib/import/excel-importer.ts:47 | the index of the first row owned by an owner: that row has it and no earlier row does |
| Importer.DistinctOwnersOrder | src/lib/import/excel-importer.ts:47 | the owners are listed in the order of their first rows |
| Importer.ResolveSellers | src/lib/import/excel-importer.ts:52-82 | an owner is mapped exactly when it was looked up and found, and it maps to the found profile's id |
| Importer.Unresolved | src/lib/import/excel-importer.ts:69-81 | the unresolved owners are exactly the looked-up owners with no single match |
| Importer.ResolveErrors | src/lib/import/excel-importer.ts:71-81 | one row-0 not-found error per unresolved owner, in order, worded by `createSellers` |
| Importer.Resolve | src/lib/import/excel-importer.ts:52-82 | only looked-up owners are mapped, and there is at most one row-0 error per owner |
| Importer.ResolveCount | src/lib/import/excel-importer.ts:52-82 | each distinct owner is either mapped or unresolved |
| Importer.CreateSellersChangesOnlyWording | src/lib/import/excel-importer.ts:71-81 | `createSellers` changes only the error wording; it creates no seller |
| Importer.SkuFor | src/lib/import/excel-importer.ts:121 | the SKU is produced exactly when brand, model and section are strings, and is then `generateSKU` of them |
| Importer.CostOf | src/lib/import/excel-importer.ts:135 | a falsy Paid value costs 0, a numeric one costs its value, and any other truthy one costs what `parseFloat` reads from its text, or 0 when it reads nothing |
| Importer.BooleanPaidCostsNothing | src/lib/import/excel-importer.ts:135 | a boolean Paid cell costs 0, given that `parseFloat` reads no number from "true" |
| Importer.BasePrice | src/lib/import/excel-importer.ts:137 | a positive cost is marked up by half; otherwise the price is 0 |
| Importer.RowRejection | src/lib/import/excel-importer.ts:92-118 | a row is rejected exactly when Brand or Model is missing, Owner is missing, or the owner is unresolved, with the first failing check's message |
| Importer.RowDuplicate | src/lib/import/excel-importer.ts:124-130 | a duplicate skip happens only under `skipDuplicates`, when one stored product has the generated SKU |
| Importer.RowIsDuplicate | src/lib/import/excel-importer.ts:110-130 | conversely, an accepted row whose string parts give a SKU that one stored product carries is skipped under `skipDuplicates` |
| Importer.RowCrash | src/lib/import/excel-importer.ts:121-176 | a row reaches the catch block only when accepted and with a non-string brand, model or section, or an out-of-range date; an accepted row crashes with "Unexpected error: " and the SKU generator's message when a part is not a string, and with "Unexpected error: Invalid time value" when, not a duplicate, its date is out of range |
| Importer.RowInsertFailed | src/lib/import/excel-importer.ts:159-166 | a failed insert reports "Database error: " and the store's message |
| Importer.RowInserted | src/lib/import/excel-importer.ts:133-169 | an inserted product has the resolved seller, title "Brand Model", the SKU, the cost and its markup, the status, the category or "Uncategorized", the description "Category-or-Camera - Brand Model", brand, model, section and import time in the metadata, and the parsed purchase date's time value, or none |
| Importer.NewProduct | src/lib/import/excel-importer.ts:140-156 | the product has the seller, SKU and status given, title "Brand Model", the cost and a price at least the cost and never negative, the category or "Uncategorized", the description "Category-or-Camera - Brand Model", brand, model, section and the import time in the metadata, and a purchase date exactly when the date is valid, with that date's time value |
| Importer.RowOutcomeOf | src/lib/import/excel-importer.ts:86-176 | a row is rejected exactly when it fails a validation check; a duplicate needs `skipDuplicates`; a failed insert comes with an error from the store, and an inserted row with none |
| Importer.Apply | src/lib/import/excel-importer.ts:93-175 | an insert appends the product and counts it imported; a duplicate only counts a skip; a rejected, failed or crashed row counts a skip and appends one entry with its row number and message |
| Importer.Run | src/lib/import/excel-importer.ts:86-177 | the store, the error list and both counters only grow over the rows |
| Importer.RunAccounting | src/lib/import/excel-importer.ts:86-177 | every row is counted once; products and errors only grow; at most one error per skip, exactly one when no row is a duplicate |
| Importer.RunErrors | src/lib/import/excel-importer.ts:86-177 | a run appends exactly the row errors of its outcomes, in row order |
| Importer.RunProducts | src/lib/import/excel-importer.ts:86-177 | a run appends exactly the products of its inserted rows to the store, in row order |
| Importer.ProductsOfMembers | src/lib/import/excel-importer.ts:158-173 | a product is added exactly when some row's outcome inserted it |
| Importer.ErrorsOfEntries | src/lib/import/excel-importer.ts:88-176 | an entry for row n (2..k+1) carries the message of row n-2, whose outcome reports an error |
| Importer.ErrorsOfComplete | src/lib/import/excel-importer.ts:88-176 | every rejected, failed or crashed row has its entry, with row number i+2 and its message |
| Importer.ErrorsOfIncreasing | src/lib/import/excel-importer.ts:88 | row numbers strictly increase, so no row has two entries |
| Importer.ErrorsOfLayout | src/lib/import/excel-importer.ts:88-176 | the row errors are exactly one entry per rejected, failed or crashed row, with its row number and message, in row order |
| Importer.RunSellerIds | src/lib/import/excel-importer.ts:140-141 | every added product's seller comes from the handler's sellers |
| Importer.InsertedSeller | src/lib/import/excel-importer.ts:110-118 | an inserted product's seller id is a non-empty value of the seller map |
| Importer.NoDuplicatesWithoutSkipping | src/lib/import/excel-importer.ts:124 | without `skipDuplicates`, no row is a duplicate |
| Importer.ImportCounts | src/lib/import/excel-importer.ts:32-181 | imported + skipped = row count; success means something was imported; the store grows by exactly the imported products; without `skipDuplicates`, errors = unresolved owners + skipped rows |
| Importer.ImportSpec | src/lib/import/excel-importer.ts:32-181 | success means something was imported; the store only grows |
| Importer.ImportErrorLayout | src/lib/import/excel-importer.ts:52-177 | errors are the row-0 owner errors, one per unresolved owner in order, followed by exactly the row errors of the run's outcomes |
| Importer.ImportSellerOwnership | src/lib/import/excel-importer.ts:69-70 | every added product belongs to a named profile of the directory |
| Importer.Store.Insert | src/lib/import/excel-importer.ts:159 | a successful insert appends the product; a failed one changes nothing |
| Importer.ResolveOwners | src/lib/import/excel-importer.ts:52-82 | the loop yields `Resolve` of the owners: the seller map and the row-0 errors |
| Importer.ImportRow | src/lib/import/excel-importer.ts:86-176 | one loop iteration applies the row's outcome to the counters, the errors and the store |
| Importer.ImportProductsFromExcel | src/lib/import/excel-importer.ts:32-181 | the method's result and new store are `ImportSpec` of the old store; profiles are unchanged; every row is counted; success means something was imported |
| Route.OptionsOf | src/app/api/import/excel/route.ts:19-21 | status is "draft" unless given; each flag is set only by the exact text "true" |
| Route.Tag | src/app/api/import/excel/route.ts:61-64 | every row keeps its cells, with Section set to the upper-cased sheet name |
| Route.Collect | src/app/api/import/excel/route.ts:34-67 | when no sheet is refused, the rows are exactly those of the section sheets, in workbook order, each tagged with its sheet's upper-cased name |
| Route.FirstFailing | src/app/api/import/excel/route.ts:33-58 | the index of the first section sheet that fails validation, or the sheet count when none does |
| Route.CollectRefusal | src/app/api/import/excel/route.ts:33-58 | the sheets are refused exactly when some section sheet fails validation, and the refusal names the first one, with its validation errors and found columns |
| Route.CollectFailureStops | src/app/api/import/excel/route.ts:50-58 | the first sheet that fails ends the request; later sheets change nothing |
| Route.CollectFailureExplained | src/app/api/import/excel/route.ts:36-58 | a refused sheet is a section sheet and has at least one error |
| Route.OtherSheetsIgnored | src/app/api/import/excel/route.ts:34-39 | a sheet not named Q1–Q4 (in any case) changes nothing, wherever it stands |
| Route.CollectedRows | src/app/api/import/excel/route.ts:34-67 | the gathered rows are all section-sheet rows, each tagged Q1–Q4; a passing section sheet has rows |
| Route.NoDataOnlyWithoutSections | src/app/api/import/excel/route.ts:69-71 | "no valid data" happens exactly when no sheet is a section sheet |
| Route.ExpectedColumnsHint | src/app/api/import/excel/route.ts:56 | the hint lists every required column, but spells the date column differently from the engine |
| Route.PostSpec | src/app/api/import/excel/route.ts:12-89 | no file gives 400 "No file provided"; any failure is a 400 that stores nothing; the request completes exactly when a file's sheets all pass and give at least one row, and then answers "Import completed" with the import of those rows under the form's options |
| Route.PostCases | src/app/api/import/excel/route.ts:12-89 | the four answers over the sheets themselves: no file; the first failing section sheet with its errors, found and expected columns; no section rows; otherwise the import of every section row |
| Route.PostAllOrNothing | src/app/api/import/excel/route.ts:12-89 | a failure is a 400 that leaves the store unchanged; a completion imports every section row (at least one) and grows the store by the imported count |
| Route.Post | src/app/api/import/excel/route.ts:12-89 | the handler's response and new store are `PostSpec` of the old store; profiles are unchanged |
| Permissions.GetRolePermissions | src/lib/auth/permissions.ts:102-104 | a role's list has no repeats, and any role other than admin and seller gets an empty list |
| Permissions.HasPermission | src/lib/auth/permissions.ts:80-83 | only the admin and seller roles hold any permission |
| Permissions.HasAnyPermission | src/lib/auth/permissions.ts:88-90 | true exactly when some listed permission is held |
| Permissions.HasAllPermissions | src/lib/auth/permissions.ts:95-97 | true exactly when every listed permission is held |
| Permissions.OwnScopedCases | src/lib/auth/permissions.ts:6-39 | the values ending in ":own" are exactly the five own-record permissions |
| Permissions.AdminGrants | src/lib/auth/permissions.ts:47-65 | admin holds exactly the permissions not limited to own records |
| Permissions.SellerGrants | src/lib/auth/permissions.ts:66-74 | seller holds exactly the own-record permissions and product creation |
| Permissions.OtherRolesGrantNothing | src/lib/auth/permissions.ts:80-104 | any other role holds no permission and gets an empty list |
| Permissions.RoleListsShape | src/lib/auth/permissions.ts:46-75 | the lists have 16 and 6 entries, no repeats, and share only `product:create` |
| Permissions.AllImpliesAny | src/lib/auth/permissions.ts:88-97 | the empty list is held entirely but never partly; all of a non-empty list implies one of it |
| Permissions.ChecksSplit | src/lib/auth/permissions.ts:88-97 | checking a concatenation is checking both parts |
| Permissions.AllPermissionsComplete | src/lib/auth/permissions.ts:6-39 | all 21 permissions are listed |
| Permissions.ValueInjective | src/lib/auth/permissions.ts:6-39 | different permissions have different strings |
| BaseAdapter.NewBase | src/lib/platforms/base.ts:12-16 | the constructor keeps the platform and the config's credentials; no config means no credentials |
| BaseAdapter.FullSync | src/lib/platforms/base.ts:61-81 | the platform and timestamp are reported; success exactly when both calls succeed; orders are synced exactly when the listing succeeded |
| BaseAdapter.FullSyncOutcome | src/lib/platforms/base.ts:61-81 | success with both counts and no errors exactly when both calls succeed; otherwise one message ("Unknown error" for a non-error) and no counts; platform and timestamp always reported |
| BaseAdapter.FullSyncCalls | src/lib/platforms/base.ts:62-64 | products are listed first; orders are synced exactly when the listing succeeded |
| EtsyAdapter.NewEtsyFields | src/lib/platforms/etsy.ts:9-11 | platform "etsy" with the key and no secret |
| EtsyAdapter.StubBehaviour | src/lib/platforms/etsy.ts:13-59 | nothing listed, found or synced; created as "mock-etsy-id"; update, delete and webhook check accepted |
| EtsyAdapter.FullSyncSyncsNothing | src/lib/platforms/etsy.ts:13-53 | a full sync succeeds with 0 products and 0 orders |
| MedusaAdapter.NewMedusaFields | src/lib/platforms/medusa.ts:11-14 | platform "medusa" with the key, no secret and the URL as given |
| MedusaAdapter.StubBehaviour | src/lib/platforms/medusa.ts:16-62 | nothing listed, found or synced; created as "mock-medusa-id"; update, delete and webhook check accepted |
| MedusaAdapter.FullSyncSyncsNothing | src/lib/platforms/medusa.ts:16-56 | a full sync succeeds with 0 products and 0 orders |
| AukroAdapter.NewAukroFields | src/lib/platforms/aukro.ts:9-11 | platform "aukro" with both credentials |
| AukroAdapter.StubBehaviour | src/lib/platforms/aukro.ts:13-53 | nothing listed, found or synced; created as "mock-aukro-id"; update, delete and webhook check accepted |
| AukroAdapter.FullSyncSyncsNothing | src/lib/platforms/aukro.ts:13-47 | a full sync succeeds with 0 products and 0 orders |
| Factory.CreateAdapter | src/lib/platforms/factory.ts:11-25 | succeeds exactly for "etsy", "medusa" and "aukro", with an adapter of that platform; otherwise fails with "Unsupported platform: <id>" |
| Factory.CreateAdapterCredentials | src/lib/platforms/factory.ts:13-20 | each adapter gets its own environment credentials; Medusa's URL falls back to "" |
| Factory.OtherIsUnsupported | src/lib/platforms/factory.ts:22-23 | the platform type "other" has no adapter |
| Factory.GetAllAdapters | src/lib/platforms/factory.ts:27-33 | three adapters, Etsy, Medusa and Aukro in that order, each what `createAdapter` builds |
| Factory.SyncAllSucceeds | src/lib/platforms/factory.ts:27-33 | a full sync of each of the three adapters succeeds with nothing synced |

## Left out

- **Database and server access.** Supabase client creation, authentication and `requireAdmin` are not modelled. The two tables are sequences in `Importer.Store`, and the answer to an insert is a parameter.
- **Owner matching.** `ilike` wildcards (`%`, `_`) in owner names are not modelled: a name matches only when it equals the profile's full name ignoring ASCII case. Profile lookup errors are treated as "not found", as the code does.
- **Duplicate detection.** The `.single()` duplicate check is modelled as "exactly one stored product has the SKU". Two or more matches make `.single()` return no row, so the row is inserted.
- **Unicode.** Upper-casing, case-insensitive comparison and character classes are ASCII only.
- **The Excel epoch.** `new Date(1900, 0, 1)` is read in UTC; the server's local time zone is not modelled.
- **Floating point.** Prices, costs and serial numbers are exact reals. `1.5 * cost` is not rounded. `parseFloat` and the engine's date-string parser are parameters (`ImportEnv`).
- **Number formatting.** The JavaScript rendering of non-string cells (in titles, descriptions and messages) is carried as the cell's `shown` text and is not computed.
- **Clock reads.** A row's `Date.now()` (for its SKU) and `new Date()` (for `imported_at`) are one clock reading, `clock(i)`.
- **ISO strings.** `toISOString` values are kept as time values in milliseconds, not formatted as text.
- **Spreadsheet and HTTP plumbing.** XLSX parsing, the multipart form, response serialisation and console logging are left out. A workbook is a sequence of named sheets of rows.
- **Route.Post: the 500 catch.** The catch-all 500 response is not modelled. Its only triggers are the server, parsing and authentication failures left out above.
- Text.Filter: the contract on the function states only that the result is drawn from the accepted input characters. Exact membership and order are the lemmas `Text.FilterMembers` and `Text.FilterAppend`, because on the function itself they make every proof that unfolds a SKU too costly for the verifier.
- Text.Suffix: the contract on the function states only the length. That the result is the string's tail is the lemma `Text.SuffixIsTail`, for the same reason.
- **Date owners.** JavaScript's `Set` and `Map` compare `Date` objects by identity, so two equal Date cells in the Owner column stay two owners there, each looked up and reported on its own. The model compares cells by value and merges them. The endpoint never produces Date cells, because the workbook is read without `cellDates`.
- **Route.FoundColumns: column order.** The found columns are a set, so the order of `Object.keys` is not kept.
- **Permissions: lookup keys.** A role is a plain string. Keys inherited from `Object.prototype` are not modelled; the profile type restricts roles to "admin" and "seller".
- **Permissions: the profile argument.** The profile is reduced to its role, the only field the checks read.
- **Adapters as values.** An adapter is a value, not an object: its fields are written only by its constructor.
- **Adapter dispatch.** The three concrete adapters are a sum type rather than subclasses.
- **handleWebhook.** Every adapter's `handleWebhook` only logs and resolves, so it is not modelled.
- **Rejected promises.** Only the two calls that `fullSync` makes can fail in the model. The stubs never reject, so the other adapter calls return plain values.
- **Sync timestamp.** The timestamp of a sync result is a parameter standing for `new Date().toISOString()`.
