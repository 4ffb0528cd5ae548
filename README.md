# Scent Sync Central, modelled in Dafny

Scent Sync Central is a back office for a small candle and fragrance shop.
Its React screens keep the fragrance inventory, the supply catalogue, the
product recipes (bills of materials) and their cost of goods, production
batches, design ideas, business plans and marketplace listings. Two hosted
edge functions connect an Etsy shop with the OAuth 2.0 authorization-code
grant (RFC 6749) and pull its listings into the inventory. Two more proxy a
language model: one writes business plans, the other analyses listings.

This project models the rules inside those screens and functions, and proves
properties of them:

- the costing arithmetic of recipes and production batches, on exact `real`s;
- the inventory stock classifier, the stock clamp, search and filter, and the
  list updates;
- the naive CSV importer: line and comma splitting, column mapping,
  validation and record building;
- the small editors: idea table pagination and validation, listing tags and
  variations, business plan placeholders and task selection, document tabs,
  supply forms and the listing optimiser;
- the Etsy flow:
  - the authorization URL of section 4.1.1 of RFC 6749;
  - the token request of section 4.1.3 with the same `redirect_uri`;
  - `expires_in` seconds as in section 5.1;
  - the refresh of section 6;
  - the per-listing reconcile loop, the connection panel and the callback page;
- the prompt building and the parse-or-fallback answers of the two AI
  functions.

One module per source file. `Common` holds the shared vocabulary: `Option`,
`Result`, a JSON value, trimming, lower-casing, both kinds of splitting,
first-occurrence replacement, decimal rendering, counting and filtering.

Component state that the source updates in place is a `class` with those
fields. Its methods say with `modifies` what they change, and their
`ensures` tie the new state to a specification function. The functions then
carry the properties, as lemmas or as their own `ensures`.

The database, HTTP calls, `JSON.parse`, `encodeURIComponent`, `parseInt`,
the clock and fresh ids are never modelled. They become parameters:

- query and call outcomes are `Result` values or flags;
- parsed numbers are `Option`s, with `None` for `NaN`;
- `JSON.parse` is a function returning `Option<Json>`;
- the time is an integer number of milliseconds.

## Model

Some operations are functions specified by the lemmas about them rather than by
rows of their own. Each of those lemmas has a row below citing the same source
lines:

- `Production.TotalCost` (getTotalCost);
- `Products.ProductCogs` (calculateProductCogs);
- `EtsyConnection.IsTokenExpiring`;
- `OptimizeListing.ScoreColor` and `OptimizeListing.ScoreBadge`, through `OptimizeListing.BandOf`;
- `InventoryTable.MatchesSearch` and `InventoryTable.MatchesFilter`, through `InventoryTable.FilteredItems`;
- `Common.ReplaceFirst`, through `Common.ReplaceFirstSpec`;
- `EtsySync.Reconcile` and `EtsySync.SyncSpec`, through the EtsySync lemmas and `EtsySync.ReconcileLoop`;
- `EtsyOAuth.OAuthSpec`, through the EtsyOAuth lemmas;
- `CsvImport.ParseSpec`, through `CsvImport.ParseCsv` and `CsvImport.ParseShape`.

| member | source | states |
|---|---|---|
| Production.ComputeLines | src/components/Production.tsx:139-149 | one line per recipe row, in recipe order, copying supply id, name, unit amount and unit; total needed is quantity times n, price per unit is the price or 0, total cost is that price times quantity times n |
| Production.Linearity | src/components/Production.tsx:146-148 | at batch size k·n every line's total needed and total cost are k times their values at n |
| Production.TotalCostAppend | src/components/Production.tsx:219-221 | getTotalCost of a concatenation is the sum of the parts' totals |
| Production.TotalOfComputedLines | src/components/Production.tsx:141-149 | the total cost of a batch calculated at n units is n times the product's per-unit COGS |
| Production.CostPerUnit | src/components/Production.tsx:410 | the cost per unit exists iff the batch size is non-zero, and times the batch size it gives back the total cost |
| Production.CostPerUnitIsCogs | src/components/Production.tsx:141-149 | for n > 0 the cost per unit of a calculated batch is exactly the recipe's per-unit COGS |
| Production.CalculateGuardAsWritten | src/components/Production.tsx:106 | the guard as written passes iff a product is chosen, the text is non-empty and it is not the case that parseInt gave a number ≤ 0 (a NaN passes) |
| Production.GuardAdmitsUnparsableSize | src/components/Production.tsx:106 | the guard as written lets the batch size ".5", whose parseInt is NaN, through |
| Production.CalculateGuard | src/components/Production.tsx:106-113 | the corrected guard passes only for a parsed size > 0; it implies the guard as written, and agrees with it whenever the size parses |
| Production.CalculateBatch | src/components/Production.tsx:105-161 | with the corrected guard (see Findings): invalid input iff CalculateGuard fails; an error iff the recipe query fails; "No recipe found" iff the recipe is empty; a calculation is never empty and equals ComputeLines at the parsed size |
| Production.OfferedTransition | src/components/Production.tsx:432-457 | a completed batch offers no step; every offered step moves exactly one rank forward |
| Production.OfferedStepsEndAtCompleted | src/components/Production.tsx:432-457 | no offered step stays in place, and from planned two offered steps reach completed |
| Production.BatchPlanner.constructor | src/components/Production.tsx:213-217 | an empty form, no calculated lines and no saved batches |
| Production.BatchPlanner.Calculate | src/components/Production.tsx:105-161 | the outcome is CalculateBatch of the form, with the corrected guard; the lines are replaced only by a successful calculation; nothing else changes |
| Production.BatchPlanner.Save | src/components/Production.tsx:163-190 | saves iff product, batch-size text and lines exist and the insert succeeds; the saved row holds the lines verbatim with status planned, and the form is reset; otherwise nothing changes |
| Production.BatchPlanner.UpdateStatus | src/components/Production.tsx:192-211 | on success the batch with that id takes the given status (any status), every other batch is unchanged; the form is unchanged |
| Production.SetStatus | src/components/Production.tsx:192-196 | same length; the rows with that id take the status, the others are unchanged |
| Products.ProductCogsAppend | src/components/Products.tsx:276-281 | the COGS of a concatenated recipe is the sum of the parts' COGS |
| Products.UnpricedRecipeCostsNothing | src/components/Products.tsx:276-281 | a recipe with no priced supply has COGS 0, the empty recipe included |
| Products.ProductCogsNonNegative | src/components/Products.tsx:276-281 | non-negative prices and quantities give a non-negative COGS |
| Products.PricedCount | src/components/Products.tsx:456 | the priced count never exceeds the recipe length, equals it iff every line is priced, and is 0 iff none is |
| Products.CogsOrZero | src/components/Products.tsx:104-106 | a null COGS result counts as 0, any other is kept |
| Products.Min | src/components/Products.tsx:111 | the minimum is an element and bounds every element from below |
| Products.Max | src/components/Products.tsx:112 | the maximum is an element and bounds every element from above |
| Products.SumBounds | src/components/Products.tsx:110 | element bounds lo and hi bound the sum by \|xs\|·lo and \|xs\|·hi |
| Products.MeanBetween | src/components/Products.tsx:110 | the mean of a non-empty sequence lies between any bounds of its elements |
| Products.MapCogsOrZero | src/components/Products.tsx:102-108 | one COGS value per product, each the result or 0 |
| Products.Summarise | src/components/Products.tsx:101-120 | the product count is the number of products; all three figures are 0 for an empty category; otherwise min ≤ avg ≤ max, avg is the mean, min and max are attained and bound every product's COGS |
| Products.SuggestedPrices | src/components/Products.tsx:468-484 | shown iff COGS > 0, and then exactly 2×, 3× and 4× COGS, strictly increasing |
| Products.AddSupplyInsert | src/components/Products.tsx:222-232 | an insert iff supply, quantity text, unit and a selected product are all present; it carries that product and supply, the parsed quantity and the trimmed unit |
| InventoryTable.StatusFor | src/pages/Index.tsx:75-79 | out of stock iff stock is 0, low stock iff non-zero and at most the threshold, in stock iff above it |
| InventoryTable.StatusMonotone | src/pages/Index.tsx:75-79 | among non-negative stock levels more stock never gives a worse status |
| InventoryTable.FilteredItems | src/components/InventoryTable.tsx:32-37 | an item is shown iff it is in the list and passes both the search and the status test; never more items than the list |
| InventoryTable.FilteredItemsAppend | src/components/InventoryTable.tsx:32-37 | filtering is order-preserving: filtering a concatenation concatenates the filtered parts |
| InventoryTable.EmptySearchShowsAll | src/components/InventoryTable.tsx:33-35 | the empty term with filter "all" shows every item in order |
| InventoryTable.SearchIgnoresTermCase | src/components/InventoryTable.tsx:33-34 | an item matches a term iff it matches the lower-cased term |
| InventoryTable.StatusFilterExact | src/components/InventoryTable.tsx:35 | a status filter keeps exactly the items with that status |
| InventoryTable.StockAfterChange | src/components/InventoryTable.tsx:52-55 | the new stock is never negative; it is current + change when that is ≥ 0 and 0 otherwise |
| InventoryTable.ButtonsStepByOne | src/components/InventoryTable.tsx:117-118 | an enabled decrement lowers stock by exactly 1; the increment raises a non-negative stock by 1 |
| InventoryPage.UpdateStock | src/pages/Index.tsx:72-89 | same length and ids; items with another id are unchanged; the item with that id gets the new stock, its re-computed status and "just now", and nothing else changes in it |
| InventoryPage.SaveEdited | src/pages/Index.tsx:37-43 | same length and ids; the edited item takes every form field and "just now"; the others are unchanged |
| InventoryPage.SaveNew | src/pages/Index.tsx:48-55 | exactly one item is appended at the end, with the fresh id and the form fields; the old items stay as they were |
| InventoryPage.Delete | src/pages/Index.tsx:63-65 | an item stays iff it was there with another id; the length drops by the number of items with that id |
| InventoryPage.DeleteAppend | src/pages/Index.tsx:65 | deleting keeps the order: deleting from a concatenation concatenates the parts' results |
| InventoryPage.DashboardStats | src/pages/Index.tsx:17-21 | total SKUs is the list length; low and out-of-stock counts are counts by status and add up to at most the total |
| InventoryPage.Inventory.constructor | src/pages/Index.tsx:15 | an empty inventory and no item being edited |
| InventoryPage.Inventory.AddFragrance | src/pages/Index.tsx:26-29 | nothing is being edited afterwards; the list is unchanged |
| InventoryPage.Inventory.EditItem | src/pages/Index.tsx:31-34 | that item is being edited; the list is unchanged |
| InventoryPage.Inventory.UpdateStockOf | src/pages/Index.tsx:72-89 | the list becomes UpdateStock of the old list |
| InventoryPage.Inventory.SaveFragrance | src/pages/Index.tsx:36-61 | while editing the list becomes SaveEdited of it, otherwise SaveNew |
| InventoryPage.Inventory.DeleteFragrance | src/pages/Index.tsx:63-70 | the list becomes Delete of the old list |
| FragranceForm.OrFallback | src/components/FragranceForm.tsx:158-168 | a non-zero parsed number is kept; 0 or NaN gives the fallback |
| FragranceForm.InitialForm | src/components/FragranceForm.tsx:29-35 | the state initializer: with no item the fields are empty, stock 0 and threshold 3; an item's SKU, name and stock are copied, its threshold too unless it is 0 |
| FragranceForm.StockInput | src/components/FragranceForm.tsx:158 | the parsed stock, or 0 for NaN |
| FragranceForm.ThresholdInput | src/components/FragranceForm.tsx:168 | never 0: the parsed threshold when non-zero, 3 otherwise |
| FragranceForm.CountPlatform | src/components/FragranceForm.tsx:75-76 | a platform's count never exceeds the number of connections |
| FragranceForm.PlatformCountsAddUp | src/components/FragranceForm.tsx:75-76 | the Etsy and WooCommerce counts add up to the number of connections |
| FragranceForm.HandleSave | src/components/FragranceForm.tsx:61-81 | saves iff SKU and name are non-empty; the saved data copies the fields, classifies the stock like the inventory page, and counts the connections per platform |
| FragranceForm.RemoveConnection | src/components/FragranceForm.tsx:102-104 | a connection stays iff it was there with another id |
| FragranceForm.RemoveConnectionAppend | src/components/FragranceForm.tsx:103 | removal keeps the order of the rest |
| FragranceForm.Form.constructor | src/components/FragranceForm.tsx:29-59 | the form at mount: InitialForm of the item passed then, the two demonstration connections (an Etsy one, then a WooCommerce one) and an empty draft |
| FragranceForm.Form.SetStock | src/components/FragranceForm.tsx:158 | only the stock field changes, to StockInput |
| FragranceForm.Form.SetThreshold | src/components/FragranceForm.tsx:168 | only the threshold field changes, to ThresholdInput |
| FragranceForm.Form.AddConnection | src/components/FragranceForm.tsx:83-100 | adds iff the draft has a listing id and name; then exactly the draft with the fresh id is appended and the draft resets to Etsy with empty fields; otherwise nothing changes |
| FragranceForm.Form.RemoveConnectionById | src/components/FragranceForm.tsx:102-104 | the connections become RemoveConnection of the old ones |
| CsvImport.CsvLines | src/components/CSVImportDialog.tsx:79 | a line is kept iff it is a piece between newlines that is not blank; no kept line holds a newline |
| CsvImport.CleanField | src/components/CSVImportDialog.tsx:80-82 | no cleaned field holds a double quote or is longer than the raw one; a field without quotes is just trimmed |
| CsvImport.LineFields | src/components/CSVImportDialog.tsx:82 | one field per comma-separated piece (at least one), none holding a double quote |
| CsvImport.RowKeys | src/components/CSVImportDialog.tsx:83-86 | a row's keys are exactly the headers |
| CsvImport.RowValue | src/components/CSVImportDialog.tsx:84-86 | under a header that does not occur again later, the row holds the value at that position, or '' past the end of the line |
| CsvImport.BuildRow | src/components/CSVImportDialog.tsx:83-87 | the header loop builds exactly RowOf of the headers and values |
| CsvImport.RowsOf | src/components/CSVImportDialog.tsx:81-88 | one row per data line, in order, each built from that line's fields |
| CsvImport.BuildRows | src/components/CSVImportDialog.tsx:81-88 | the line loop builds exactly RowsOf |
| CsvImport.ParseCsv | src/components/CSVImportDialog.tsx:78-90 | the parse with its loops equals the specification ParseSpec |
| CsvImport.RowsOfPrefix | src/components/CSVImportDialog.tsx:81-88 | the rows of one more line are the previous rows plus that line's row |
| CsvImport.RowsOfAppend | src/components/CSVImportDialog.tsx:81-88 | the row map distributes over concatenated line lists |
| CsvImport.ParseShape | src/components/CSVImportDialog.tsx:79-86 | the parse fails iff every line is blank; otherwise there are non-blank lines − 1 rows, no header holds a double quote, and every row has exactly the headers as keys |
| CsvImport.QuotedFieldKeepsInnerSpaces | src/components/CSVImportDialog.tsx:80-82 | a field quoted around text without quotes comes out as exactly that text, surrounding spaces included, because the trim happens before the quotes are removed: `" a "` gives ` a ` |
| Common.RemoveCharAppend | src/components/CSVImportDialog.tsx:82 | removing a character from a concatenation removes it from each part |
| CsvImport.TableColumns | src/components/CSVImportDialog.tsx:27-40 | four columns for either table, and a column is required iff it is name or product_type |
| CsvImport.FindHeader | src/components/CSVImportDialog.tsx:103 | a non-empty answer is a header whose lower-case form contains the key; it is '' when none does, and otherwise the first header that does |
| CsvImport.MappingsFor | src/components/CSVImportDialog.tsx:102-105 | one mapping per table column, in order, each naming FindHeader of its key |
| CsvImport.InitialMappings | src/components/CSVImportDialog.tsx:101-106 | one mapping per column of the table, in the table's order, each naming the first matching header or '' |
| CsvImport.ChangeMapping | src/components/CSVImportDialog.tsx:111-119 | same length and table columns; the entries for that table column take the new CSV column, the others keep theirs |
| CsvImport.AllRequiredMapped | src/components/CSVImportDialog.tsx:122-127 | true iff every required column has a mapping naming a non-empty CSV column |
| CsvImport.ValidateMappings | src/components/CSVImportDialog.tsx:121-128 | true iff both name and product_type are mapped |
| CsvImport.ChangeMappingKeepsOthers | src/components/CSVImportDialog.tsx:111-119 | changing one column's mapping does not change whether any other column is mapped |
| CsvImport.ChangeMappingMaps | src/components/CSVImportDialog.tsx:111-119 | choosing a non-empty CSV column for an existing entry makes that column mapped |
| CsvImport.MappedValue | src/components/CSVImportDialog.tsx:149-150 | the trimmed cell when it is present and non-empty, otherwise null |
| CsvImport.RecordKeys | src/components/CSVImportDialog.tsx:146-152 | a record's keys are user_id and the table columns of the mappings with both columns non-empty |
| CsvImport.RecordValue | src/components/CSVImportDialog.tsx:147-151 | under a table column no later mapping names, the record holds the trimmed cell or null |
| CsvImport.RecordHasUser | src/components/CSVImportDialog.tsx:146 | when no mapping targets user_id, every record carries the signed-in user's id |
| CsvImport.BuildRecord | src/components/CSVImportDialog.tsx:146-153 | the mapping loop builds exactly RecordOf |
| CsvImport.RecordsOf | src/components/CSVImportDialog.tsx:145-154 | one record per parsed row, in order |
| CsvImport.BuildRecords | src/components/CSVImportDialog.tsx:145-154 | the row loop builds exactly RecordsOf |
| CsvImport.ImportSpec | src/components/CSVImportDialog.tsx:130-176 | refused iff the mappings do not validate; fails iff they do but there is no user or the insert fails; an import inserts exactly one record per parsed row |
| CsvImport.RecordsOfAppend | src/components/CSVImportDialog.tsx:145-154 | the record map distributes over concatenated row lists |
| CsvImport.ImportDialog.constructor | src/components/CSVImportDialog.tsx:43-47 | step 1 with no headers, rows or mappings |
| CsvImport.ImportDialog.FileUpload | src/components/CSVImportDialog.tsx:92-109 | the parse result is ParseSpec of the file; on success the headers, rows and initial mappings are stored and the dialog moves to step 2; a file with only blank lines changes nothing |
| CsvImport.ImportDialog.Load | src/components/CSVImportDialog.tsx:98-108 | the state after a successful parse: its headers and rows, the initial mappings, step 2 |
| CsvImport.ImportDialog.ColumnMappingChange | src/components/CSVImportDialog.tsx:111-119 | the mappings become ChangeMapping of the old ones; nothing else changes |
| CsvImport.ImportDialog.Import | src/components/CSVImportDialog.tsx:130-176 | the outcome is ImportSpec of the state; a successful import resets the dialog, any other outcome leaves it as it was |
| IdeaTable.TotalPages | src/components/IdeaTable.tsx:56 | the ceiling of n over the page size: the pages hold all n ideas, one page fewer would not, and there are no pages iff there are no ideas |
| IdeaTable.PageOf | src/components/IdeaTable.tsx:57 | at most a page of ideas: the contiguous window starting at (page − 1)·pageSize, or nothing past the end |
| IdeaTable.FirstPagesArePrefix | src/components/IdeaTable.tsx:57 | pages 1..k one after another are the list's prefix of k·pageSize ideas |
| IdeaTable.PagesCoverList | src/components/IdeaTable.tsx:56-57 | pages 1..totalPages one after another give back the whole list |
| IdeaTable.PagesInRangeNonEmpty | src/components/IdeaTable.tsx:56-57 | a page has ideas on it iff it is at most totalPages |
| IdeaTable.PrevPage | src/components/IdeaTable.tsx:440 | one page back when above page 1, and never below page 1 |
| IdeaTable.NextPage | src/components/IdeaTable.tsx:466 | one page on when below totalPages, and never beyond totalPages |
| IdeaTable.ShowControls | src/components/IdeaTable.tsx:432 | the controls show iff there are more ideas than fit on one page, that is iff totalPages > 1 |
| IdeaTable.Normalise | src/components/IdeaTable.tsx:103-123 | refused iff the name or the product type is blank; stored name and type are trimmed and non-empty, optional fields trimmed with '' becoming null |
| IdeaTable.NormaliseIdempotent | src/components/IdeaTable.tsx:120-123 | normalising stored fields again gives them back unchanged |
| IdeaTable.EditFormOf | src/components/IdeaTable.tsx:92-100 | the edit form copies the idea's name and type, with a null optional field shown as '' |
| IdeaTable.ToggleStar | src/components/IdeaTable.tsx:58-63 | the rows with that id take the negation of the flag they showed; the other rows and the order are unchanged |
| IdeaTable.ToggleStarTwice | src/components/IdeaTable.tsx:58-63 | a second click, with the flag the row then shows, gives back the stored ideas |
| IdeaTable.SaveSpec | src/components/IdeaTable.tsx:102-145 | "required" iff validation fails; a failure iff it passes but there is no user or the insert fails; a created idea holds the normalised fields and the user's id |
| IdeaTable.UpdateSpec | src/components/IdeaTable.tsx:147-187 | "required" iff validation fails; a failure iff the update fails; an updated idea holds the normalised fields under the editing id |
| IdeaTable.Table.constructor | src/components/IdeaTable.tsx:36-53 | no new row, nothing being edited, empty forms, page size 10 and page 1 |
| IdeaTable.Table.Visible | src/components/IdeaTable.tsx:57 | the rows shown are the current page of the ideas, at most a page of them |
| IdeaTable.Table.Previous | src/components/IdeaTable.tsx:436-443 | the page becomes PrevPage of the old one; nothing else changes |
| IdeaTable.Table.Next | src/components/IdeaTable.tsx:462-469 | the page becomes NextPage of the old one; nothing else changes |
| IdeaTable.Table.GoTo | src/components/IdeaTable.tsx:446-459 | the page becomes the chosen one; nothing else changes |
| IdeaTable.Table.SetPageSize | src/components/IdeaTable.tsx:413-416 | the page size becomes the chosen one and the page goes back to 1 |
| IdeaTable.Table.AddNew | src/components/IdeaTable.tsx:82-90 | the new row shows with an empty form; nothing else changes |
| IdeaTable.Table.Edit | src/components/IdeaTable.tsx:92-100 | that idea is being edited with EditFormOf it in the edit form |
| IdeaTable.Table.Save | src/components/IdeaTable.tsx:102-145 | the outcome is SaveSpec of the new-idea form; a created idea hides the new row |
| IdeaTable.Table.Update | src/components/IdeaTable.tsx:147-187 | the outcome is UpdateSpec of the edit form; a successful update ends the editing |
| IdeaTable.Table.Cancel | src/components/IdeaTable.tsx:189-198 | no new row, nothing being edited, an empty new-idea form |
| AddListingForm.FindFragrance | src/components/AddListingForm.tsx:63 | None iff no fragrance has that id; otherwise the first fragrance in the list with that id |
| AddListingForm.FragranceName | src/components/AddListingForm.tsx:133-135 | '' for an unknown id; for a known id, the name of the first fragrance with that id (so a non-empty name always belongs to a fragrance with that id) |
| AddListingForm.AutofillSku | src/components/AddListingForm.tsx:60-71 | when a chosen fragrance id is known the SKU becomes that fragrance's SKU and nothing else changes; otherwise the form is unchanged |
| AddListingForm.SelectFragrance | src/components/AddListingForm.tsx:60-78 | the fragrance id becomes the chosen one and only the SKU may change besides; a non-empty known id takes the SKU of the first fragrance with it; an unknown or empty id leaves the SKU as it was |
| AddListingForm.SelectVariationFragrance | src/components/AddListingForm.tsx:80-89 | an unknown id leaves the draft unchanged; a known one sets the draft's fragrance and that fragrance's SKU, keeping name and price |
| AddListingForm.AddTag | src/components/AddListingForm.tsx:111-119 | an accepted tag (non-empty, not yet present) is appended at the end, any other leaves the list unchanged; a non-empty tag is in the list afterwards; a duplicate-free list stays duplicate-free |
| AddListingForm.RemoveTag | src/components/AddListingForm.tsx:121-126 | a tag stays iff it was there and is not the removed one; duplicate-freedom is kept |
| AddListingForm.RemoveUndoesAdd | src/components/AddListingForm.tsx:111-126 | removing a tag just accepted gives back the list it was added to |
| AddListingForm.VariationOf | src/components/AddListingForm.tsx:95-98 | the variation carries the draft's fields and the fresh id |
| AddListingForm.RemoveVariation | src/components/AddListingForm.tsx:104-109 | a variation stays iff it was there with another id |
| AddListingForm.RemoveVariationUndoesAdd | src/components/AddListingForm.tsx:91-109 | removing a variation by an id no other variation has undoes adding it |
| AddListingForm.ListingForm.constructor | src/components/AddListingForm.tsx:39-58 | an empty listing, an empty tag input and an empty variation draft |
| AddListingForm.ListingForm.TypeTag | src/components/AddListingForm.tsx:52 | the tag input holds the typed text |
| AddListingForm.ListingForm.AddTypedTag | src/components/AddListingForm.tsx:111-119 | adds iff the typed tag is accepted; the tags become AddTag of the old ones; the input is cleared only when the tag was added |
| AddListingForm.ListingForm.RemoveTagNamed | src/components/AddListingForm.tsx:121-126 | the tags become RemoveTag of the old ones, and the tag is no longer present |
| AddListingForm.ListingForm.AddVariation | src/components/AddListingForm.tsx:91-102 | adds iff the draft has a name, a price and a fragrance; then exactly one variation is appended and the draft is reset; otherwise nothing changes |
| AddListingForm.ListingForm.RemoveVariationById | src/components/AddListingForm.tsx:104-109 | the variations become RemoveVariation of the old ones; nothing else in the form changes |
| AddListingForm.ListingForm.ChooseFragrance | src/components/AddListingForm.tsx:60-78 | the form becomes SelectFragrance of the old one |
| AddListingForm.ListingForm.ChooseVariationFragrance | src/components/AddListingForm.tsx:80-89 | the draft becomes SelectVariationFragrance of the old one |
| DocEditor.ActiveCount | src/pages/DocEditor.tsx:20-31 | never more active tabs than tabs |
| DocEditor.IdCount | src/pages/DocEditor.tsx:86 | never more tabs with an id than tabs |
| DocEditor.ClickTab | src/pages/DocEditor.tsx:85-87 | same number of tabs; each keeps its place, id and title, and is active iff its id is the clicked one |
| DocEditor.ClickActivatesMatching | src/pages/DocEditor.tsx:86 | after a click the active tabs are exactly those carrying the clicked id |
| DocEditor.IdCountDistinct | src/pages/DocEditor.tsx:86 | with distinct ids an id in the list is carried by exactly one tab, any other by none |
| DocEditor.ClickLeavesOneActive | src/pages/DocEditor.tsx:85-87 | with distinct ids, clicking a listed tab leaves exactly one tab active and clicking an unknown id leaves none |
| DocEditor.NewTab | src/pages/DocEditor.tsx:90-94 | the new tab is titled "Untitled" and is inactive |
| DocEditor.NewTabIdsDiffer | src/pages/DocEditor.tsx:91 | tabs added at different clock readings have different ids |
| DocEditor.NewTabIdIsNotInitial | src/pages/DocEditor.tsx:91 | a new tab never takes the id of an initial tab |
| DocEditor.NewTabKeepsIdsDistinct | src/pages/DocEditor.tsx:89-96 | adding a tab with an unused id keeps the ids distinct |
| DocEditor.ActiveCountAppend | src/pages/DocEditor.tsx:95 | the active count of a concatenation is the sum of the parts' counts |
| DocEditor.InitialIdsAre | src/pages/DocEditor.tsx:20-31 | the initial ids are main and tab1 to tab9, in that order |
| DocEditor.InitialIdsDistinct | src/pages/DocEditor.tsx:20-31 | the initial ids are distinct |
| DocEditor.CountNone | src/pages/DocEditor.tsx:22-30 | a list with no active tab has active count 0 |
| DocEditor.OnlyFirstActive | src/pages/DocEditor.tsx:20-31 | a list whose first tab alone is active has exactly one active tab |
| DocEditor.InitialTabsOneActive | src/pages/DocEditor.tsx:20-31 | the initial list has exactly one active tab and no id twice |
| DocEditor.Editor.constructor | src/pages/DocEditor.tsx:65-66 | the editor opens on the initial tabs, one of them active, with the title "LAST QUARTER Plan" |
| DocEditor.Editor.HandleTabClick | src/pages/DocEditor.tsx:85-87 | the tabs become ClickTab of the old ones, with as many active tabs as old tabs carrying the id |
| DocEditor.Editor.AddNewTab | src/pages/DocEditor.tsx:89-96 | exactly the new tab is appended; the active count is unchanged |
| Supplies.PriceField | src/components/Supplies.tsx:125 | an empty price text stores null, any other text stores its parsed number (None for NaN) |
| Supplies.Normalise | src/components/Supplies.tsx:122-128 | name and unit are trimmed, the category is kept, the vendor is null iff it is blank and otherwise trimmed, the price follows PriceField |
| Supplies.NormaliseIdempotent | src/components/Supplies.tsx:122-128 | normalising the stored name, vendor and unit again changes none of them |
| Supplies.CreateSupply | src/components/Supplies.tsx:117-129 | refused iff the name or the unit is blank or no category is chosen; otherwise the normalised fields, with non-empty name and unit |
| Supplies.UpdateSupply | src/components/Supplies.tsx:160-172 | refused iff nothing is being edited or the name or unit is blank; otherwise the normalised fields for the edited supply's id |
| Supplies.CreateCategory | src/components/Supplies.tsx:93-98 | refused iff the name is blank; otherwise the trimmed, non-empty name |
| Supplies.EditForm | src/components/Supplies.tsx:148-158 | the form shows the supply's name, unit and category, its vendor or '', and its price text or '' |
| Supplies.EditThenUpdateKeepsSupply | src/components/Supplies.tsx:148-172 | saving an unchanged edit form of a supply whose name, unit and vendor are non-empty with no whitespace at either end (and whose price, when set, has non-empty text) writes that supply's own id and values back |
| Supplies.DialogForm | src/components/Supplies.tsx:223-230 | an empty form, with the category filled in when a non-empty one is given |
| Supplies.FindCategory | src/components/Supplies.tsx:234 | None iff no loaded category has that id; otherwise a loaded category with that id |
| Supplies.DeleteAllowed | src/components/Supplies.tsx:232-241 | refused iff the category found for the id has supplies; a category whose every copy is empty can be deleted |
| Supplies.SuppliesPage.constructor | src/components/Supplies.tsx:39-48 | the loaded categories, an empty supply form, nothing being edited, the dialog closed |
| Supplies.SuppliesPage.OpenSupplyDialog | src/components/Supplies.tsx:223-230 | the form becomes DialogForm, nothing is being edited, the dialog is open |
| Supplies.SuppliesPage.EditSupply | src/components/Supplies.tsx:148-158 | the form becomes EditForm of the supply, which is being edited, and the dialog is open |
| Supplies.SuppliesPage.CreateSupplyFromForm | src/components/Supplies.tsx:117-146 | the row sent is CreateSupply of the form; after a successful insert the form is reset and the dialog closed, otherwise both stay |
| Supplies.SuppliesPage.UpdateSupplyFromForm | src/components/Supplies.tsx:160-190 | the update sent is UpdateSupply of the form; after a successful update the form is reset, editing ends and the dialog closes, otherwise all stay |
| Supplies.SuppliesPage.DeleteCategory | src/components/Supplies.tsx:232-241 | the delete is issued iff DeleteAllowed; a refused delete has a loaded category with that id and supplies |
| NewPlanPage.ExpandedFields | src/components/NewPlanPage.tsx:80-85 | each field as `replace` inserts it, its `$` patterns expanded; a field without '{' stays without one |
| NewPlanPage.FillTemplate | src/components/NewPlanPage.tsx:79-85 | on a template holding each placeholder once, in order, with no '{' in the literal text or the fields before the last and no field holding `$&`, `` $` `` or `$'`, the replace chain puts the six expanded fields in the placeholders' places; fields without a '$' go in verbatim |
| NewPlanPage.BudgetDollars | src/components/NewPlanPage.tsx:83 | a budget typed as `$$` (the other fields '$'-free) reaches the prompt as a single `$` |
| NewPlanPage.GenerateDisabled | src/components/NewPlanPage.tsx:315 | generation is enabled iff not generating and both title and description are non-empty |
| NewPlanPage.Tasks | src/components/NewPlanPage.tsx:99 | a null plan throws (None); an object's tasks array is the task list; a missing or null tasks field, or a plan that is not an object, gives no tasks |
| NewPlanPage.AllIndices | src/components/NewPlanPage.tsx:100 | exactly the indices 0..n−1, in order |
| NewPlanPage.AllIndicesDistinct | src/components/NewPlanPage.tsx:100 | the initial selection holds no index twice |
| NewPlanPage.ToggleTask | src/components/NewPlanPage.tsx:449-457 | the index is selected afterwards iff it was checked; every other index keeps its state; the selection stays distinct; adding puts a new index last, as a Set keeps insertion order |
| NewPlanPage.TaskField | src/components/NewPlanPage.tsx:142-143 | a field of a task object, undefined for a task that is not an object |
| NewPlanPage.TaskRows | src/components/NewPlanPage.tsx:138-147 | one plan-task row per selected index, in selection order, with the task's title and description, order index = the index, not completed |
| NewPlanPage.TodoRows | src/components/NewPlanPage.tsx:164-169 | one todo per plan-task row with its title and description, not completed, for the user |
| NewPlanPage.SavePlan | src/components/NewPlanPage.tsx:114-182 | the plan row has status draft and the form; a failed plan insert writes no tasks; the task rows come from TaskRows; todos are written only for a non-empty, successfully inserted task list; saved iff the plan insert succeeds and the task insert does when there are tasks, with the selection's size as the count |
| NewPlanPage.SavedTasksMirror | src/components/NewPlanPage.tsx:138-173 | on success the todos mirror the plan tasks one to one: same count as the selection, order index = index, not completed, same titles and descriptions |
| NewPlanPage.RenderContent | src/components/NewPlanPage.tsx:199-207 | null renders as "null" and undefined as "undefined" |
| NewPlanPage.RenderStringVerbatim | src/components/NewPlanPage.tsx:200-201 | a string is returned unchanged |
| NewPlanPage.RenderShowsEveryEntry | src/components/NewPlanPage.tsx:202-204 | every entry of an object appears in the text as "key: value" |
| NewPlanPage.RenderSeparatesEntries | src/components/NewPlanPage.tsx:204 | entries are separated by a blank line |
| NewPlanPage.PlanPage.constructor | src/components/NewPlanPage.tsx:21-34 | the form step, not generating, no plan, no selection, an empty form |
| NewPlanPage.PlanPage.SetForm | src/components/NewPlanPage.tsx:247-306 | the form holds the typed values |
| NewPlanPage.PlanPage.GeneratePlan | src/components/NewPlanPage.tsx:74-112 | the prompt is the template after the replace chain, with `replace`'s `$` patterns expanded; a failed call returns to the form and keeps the plan and the selection; a plan is stored and, when its tasks can be read, every index is selected and the results step shown; a null plan goes back to the form |
| NewPlanPage.PlanPage.ApplyResponse | src/components/NewPlanPage.tsx:95-108 | from a distinct selection: an error returns to the form with plan and selection kept; a plan is stored and, when its tasks can be read, every index is selected and the results step shown, otherwise (a null plan) the page goes back to the form; the page invariant holds afterwards |
| NewPlanPage.PlanPage.Toggle | src/components/NewPlanPage.tsx:447-457 | the selection becomes ToggleTask of the old one |
| NewPlanPage.PlanPage.Save | src/components/NewPlanPage.tsx:114-182 | the writes are SavePlan of the page's form, plan, tasks and selection |
| NewPlanPage.PlanPage.Reset | src/components/NewPlanPage.tsx:184-196 | empty fields, no plan, no selection, back to the form |
| Common.Field | src/pages/EtsyCallback.tsx:51-54 | a JSON property is present iff some entry has that key, and its value is the value of such an entry |
| Common.Trim | src/components/CSVImportDialog.tsx:80 | `trim()`: never longer; no whitespace at either end; empty iff the text is all whitespace |
| Common.TrimmedIsFixed | src/components/Supplies.tsx:148-172 | non-empty text with no whitespace at either end is its own trim |
| Common.TrimIdempotent | src/components/IdeaTable.tsx:120-121 | trimming twice is trimming once |
| Common.TrimOrNull | src/components/IdeaTable.tsx:122-123 | `x.trim() \|\| null`: null iff the text is all whitespace, otherwise the trimmed, non-empty text |
| Common.TrimOrNullIdempotent | src/components/IdeaTable.tsx:122-123 | applying it to its own output changes nothing |
| Common.LowerChar | src/components/InventoryTable.tsx:33-34 | `toLowerCase()` of one character: only letters below U+0180 change, and a changed one lands below U+0180 |
| Common.LowerCharIdempotent | src/components/InventoryTable.tsx:33-34 | a lower-cased character is its own lower case |
| Common.AccentedCapitalsFold | src/components/InventoryTable.tsx:33-34 | accented capitals fold: "CRÈME" lower-cases to "crème", Ÿ to ÿ, Ž to ž; İ and × stay |
| Common.ToLower | src/components/InventoryTable.tsx:33-34 | `toLowerCase()`: same length, each character lower-cased by LowerChar (the capitals of Basic Latin, Latin-1 and Latin Extended-A) |
| Common.ToLowerIdempotent | src/components/InventoryTable.tsx:33-34 | lower-casing twice is lower-casing once |
| Common.IndexOf | src/components/NewPlanPage.tsx:80 | the first position where the pattern occurs, or None iff it occurs nowhere |
| Common.Substitute | src/components/NewPlanPage.tsx:80-85 | a replacement string without '$' is inserted as it is |
| Common.Expanded | src/components/NewPlanPage.tsx:80-85 | the text a replacement quoting nothing of the subject inserts holds only characters of the replacement |
| Common.SubstituteChars | src/components/NewPlanPage.tsx:80-85 | the inserted text holds only characters of the replacement, the match and the text around it |
| Common.SubstituteQuotingNothing | src/components/NewPlanPage.tsx:80-85 | a replacement without `$&`, `` $` `` or `$'` inserts the same text wherever it lands |
| Common.DollarPatterns | src/components/NewPlanPage.tsx:80-85 | `$$` inserts one `$`, `$&` the matched text; a `$` before any other character stays |
| Common.ReplaceFirstSpec | src/components/NewPlanPage.tsx:80-85 | `replace` with a string pattern: no occurrence leaves the text unchanged, otherwise only the first occurrence is replaced, by the replacement with its `$` patterns expanded against that occurrence |
| Common.ReplaceAbsent | supabase/functions/etsy-sync/index.ts:30 | a pattern whose first character does not occur leaves the text unchanged |
| Common.ReplaceFirstAfterPrefix | supabase/functions/etsy-sync/index.ts:30 | when the prefix cannot start the pattern, the occurrence right after it is the one replaced, by the expanded replacement |
| Common.ConcatContainsPair | supabase/functions/generate-business-plan/index.ts:27-37 | any two neighbouring pieces of a template literal appear together in its text |
| Common.JoinWithContains | src/components/NewPlanPage.tsx:204 | every joined piece appears in the joined text |
| Common.Split | src/components/CSVImportDialog.tsx:79-80 | `split` on one character: at least one piece, and no piece holds the separator |
| Common.JoinSplit | src/components/CSVImportDialog.tsx:79-80 | joining the pieces of a split with the separator gives the text back |
| Common.SplitPrefix | src/components/CSVImportDialog.tsx:80 | a separator-free piece followed by the separator splits off as the first piece |
| Common.SplitWhole | src/components/CSVImportDialog.tsx:80 | text without the separator splits into itself alone |
| Common.SplitJoin | src/components/CSVImportDialog.tsx:80 | splitting a join of separator-free pieces gives the pieces back |
| Common.RemoveChar | src/components/CSVImportDialog.tsx:80 | `replace(/"/g, '')`: the character no longer occurs, the text is never longer, and a text without it is unchanged |
| Common.NatToString | supabase/functions/etsy-sync/index.ts:143 | `toString()` of a whole number: a non-empty string of decimal digits |
| Common.DecimalRoundTrip | supabase/functions/etsy-sync/index.ts:143 | the decimal text reads back as the number |
| Common.NatToStringInjective | supabase/functions/etsy-sync/index.ts:143 | different listing ids give different SKUs |
| Common.CountWhere | src/pages/Index.tsx:19-20 | `filter(p).length` never exceeds the length |
| Common.CountWhereAppend | src/pages/Index.tsx:19-20 | counts add over concatenation |
| Common.Filter | src/pages/Index.tsx:65 | `filter(p)`: the elements kept are exactly those satisfying p, as many as CountWhere |
| Common.FilterAppend | src/pages/Index.tsx:65 | filtering keeps the order: it distributes over concatenation |
| Common.CountComplement | src/components/FragranceForm.tsx:75-76 | the counts of a predicate and its negation add up to the length |
| Common.FilterDistinct | src/components/AddListingForm.tsx:124 | filtering a duplicate-free list leaves it duplicate-free |
| EtsySync.ExpiresAt | supabase/functions/etsy-sync/index.ts:78 | the new expiry is expires_in seconds, as milliseconds, after now (section 5.1 of RFC 6749) |
| EtsySync.MatchingIds | supabase/functions/etsy-sync/index.ts:38-44 | a connection matches iff it belongs to the user, names the shop and is active |
| EtsySync.ConnectionQuery | supabase/functions/etsy-sync/index.ts:38-48 | `.single()` finds a connection iff exactly one row matches, and then it is that row |
| EtsySync.Price | supabase/functions/etsy-sync/index.ts:154 | the price times the divisor is the amount: price = amount / divisor |
| EtsySync.Sku | supabase/functions/etsy-sync/index.ts:143 | the SKU is the decimal text of the listing id and reads back as it |
| EtsySync.StatusOf | supabase/functions/etsy-sync/index.ts:181 | active iff the provider state is "active", inactive otherwise |
| EtsySync.NewFragrance | supabase/functions/etsy-sync/index.ts:146-158 | a created fragrance has the SKU, the title as name, the description or '', the price, the quantity as stock and threshold 10 |
| EtsySync.RowFor | supabase/functions/etsy-sync/index.ts:172-185 | the listing row names the fragrance and platform, copies title, description (or ''), price, quantity, status, id and url, and is stamped now |
| EtsySync.SummaryOf | supabase/functions/etsy-sync/index.ts:192-196 | the summary carries the listing id, title and price |
| EtsySync.Step | supabase/functions/etsy-sync/index.ts:138-200 | one listing: on success exactly its summary and its row are appended, the row naming the fragrance found or created; a failed lookup, create or upsert changes neither list; a fragrance is created only when its SKU is missing and the insert succeeds |
| EtsySync.ReconcileCounts | supabase/functions/etsy-sync/index.ts:135-201 | the loop only appends, as many rows as summaries, and at most one per listing |
| EtsySync.NoFaultsSyncsAll | supabase/functions/etsy-sync/index.ts:135-201 | without database faults every listing is synced, in input order |
| EtsySync.AllUpsertsFailSyncsNothing | supabase/functions/etsy-sync/index.ts:187-190 | when every upsert fails nothing is synced and no row is written |
| EtsySync.ReconcileRowsMatchSummary | supabase/functions/etsy-sync/index.ts:172-196 | the rows written and the summaries stay in step: the k-th new row describes the k-th synced listing |
| EtsySync.ReconcileSnoc | supabase/functions/etsy-sync/index.ts:137-201 | the loop's state after one more listing is Step of the state before it |
| EtsySync.SyncListing | supabase/functions/etsy-sync/index.ts:138-200 | the loop body's statements for one listing compute exactly Step, so the properties of Step hold of it |
| EtsySync.ReconcileLoop | supabase/functions/etsy-sync/index.ts:135-201 | the `for` loop with its `continue`s computes exactly Reconcile of the listings |
| EtsySync.Refreshed | supabase/functions/etsy-sync/index.ts:74-86 | the refreshed connection has the new access token and an expiry expires_in seconds after now; it takes the new refresh token when the answer has one and keeps the stored one otherwise; nothing else in it changes |
| EtsySync.RejectedBeforeConnection | supabase/functions/etsy-sync/index.ts:25-48 | without an authorization header (missing or empty), with an invalid user, or without exactly one active connection, the answer is that error, nothing is written and no request is made |
| EtsySync.RefreshIffExpired | supabase/functions/etsy-sync/index.ts:50-98 | the first request is a refresh (section 6 of RFC 6749) iff now ≥ expires_at, with the stored refresh token; otherwise it is the listings request with the stored token, and no connection is written |
| EtsySync.FailedRefreshWritesNothing | supabase/functions/etsy-sync/index.ts:70-72 | a failed refresh answers "Failed to refresh access token" after the one request, writing nothing |
| EtsySync.RefreshUpdatesThatConnection | supabase/functions/etsy-sync/index.ts:74-98 | a successful refresh stores the new access token, the new refresh token (the stored one when the answer has none) and the expiry on that connection only, and the listings are then asked for with the new token |
| EtsySync.SyncedCountMatchesRows | supabase/functions/etsy-sync/index.ts:135-212 | on success syncedCount is the number of summaries, at most the number of listings; exactly that many rows are appended to the listings table, each describing its summary, and a platform exists |
| EtsySync.ReconcileShift | supabase/functions/etsy-sync/index.ts:135-201 | starting with no summaries, the rows the loop appends describe its summaries one to one |
| EtsySync.ReconcileRowsIndependent | supabase/functions/etsy-sync/index.ts:135-201 | what the loop does does not depend on the rows already in the table: they are kept as a prefix |
| EtsySync.NoFaultsSyncsEveryListing | supabase/functions/etsy-sync/index.ts:15-212 | with every call succeeding, the answer reports every listing, in input order |
| EtsySync.PlatformLookupErrorStops | supabase/functions/etsy-sync/index.ts:108-131 | a platform lookup error other than "no row" is the answer, after the listing read and any refresh; no platform, fragrance or listing row is written |
| EtsySync.EtsyStore.constructor | supabase/functions/etsy-sync/index.ts:13 | the store holds the given tables |
| EtsySync.EtsyStore.Sync | supabase/functions/etsy-sync/index.ts:15-224 | the handler's answer, requests and new tables are those of SyncSpec on the old tables |
| EtsyOAuth.RedirectUri | supabase/functions/etsy-oauth/index.ts:45 | the origin header followed by "/etsy-callback", and "null/etsy-callback" without the header |
| EtsyOAuth.PairTexts | supabase/functions/etsy-oauth/index.ts:48-53 | one "key=value" text per parameter, in order |
| EtsyOAuth.ParsePairs | supabase/functions/etsy-oauth/index.ts:48-53 | one parsed pair per piece, in order |
| EtsyOAuth.ParsePairText | supabase/functions/etsy-oauth/index.ts:49-53 | a "key=value" text without further '=' parses back to its pair |
| EtsyOAuth.QueryRoundTrip | supabase/functions/etsy-oauth/index.ts:48-53 | a query of plain parameters parses back to the same parameters, in order |
| EtsyOAuth.ConnectParams | supabase/functions/etsy-oauth/index.ts:44-53 | the five parameters of section 4.1.1 of RFC 6749, in order: response_type=code, the encoded redirect URI, the encoded scope, client_id = the API key, state = the user id |
| EtsyOAuth.ConnectUrlParameters | supabase/functions/etsy-oauth/index.ts:48-53 | when the encoder escapes '&' and '=' and the key and user id are plain, the URL is the authorize endpoint, "?", and a query parsing back to exactly those five parameters |
| EtsyOAuth.ConnectionFor | supabase/functions/etsy-oauth/index.ts:101-115 | the stored row has the user, the decimal shop id, the shop name, is active, holds the returned tokens, expires expires_in seconds after now, and was synced now |
| EtsyOAuth.AuthFailsFirst | supabase/functions/etsy-oauth/index.ts:30-40 | without a header (missing or empty) or with an invalid user the answer is that error, before any action: nothing is written and no request is made |
| EtsyOAuth.ConnectAnswersUrl | supabase/functions/etsy-oauth/index.ts:42-58 | connect answers the authorization URL, writes nothing and makes no request; its query starts with response_type=code and ends with state = the user id |
| EtsyOAuth.RedirectUriAgrees | supabase/functions/etsy-oauth/index.ts:45-72 | for the same origin, the redirect_uri in the connect URL is the encoding of the one sent in the token request (section 4.1.3 of RFC 6749) |
| EtsyOAuth.InvalidActionRefused | supabase/functions/etsy-oauth/index.ts:134 | any other action, or a callback without a code, is "Invalid action", with nothing written and no request made |
| EtsyOAuth.ExchangeFirst | supabase/functions/etsy-oauth/index.ts:61-81 | a callback first sends the authorization_code token request with key, secret, redirect URI and code; a failed exchange answers "Failed to exchange code for token" after it and writes no connection |
| EtsyOAuth.StoresFirstShop | supabase/functions/etsy-oauth/index.ts:97-131 | a connection is written only by a successful callback, and then it is ConnectionFor the first shop; the answer is Connected iff every step succeeds, naming that shop, whose row holds its id and is active |
| EtsyOAuth.HandleOAuth | supabase/functions/etsy-oauth/index.ts:15-146 | the handler's answer, requests and new connection table are those of OAuthSpec on the old table |
| EtsyConnection.DaysUntilExpiry | src/components/EtsyConnection.tsx:153 | `Math.ceil` of the time left in days: the smallest whole number of days covering it |
| EtsyConnection.ExpiringIffWithinAWeek | src/components/EtsyConnection.tsx:149-155 | the warning shows iff there is a connection with an expiry at most seven days of milliseconds away; an expired token always shows it |
| EtsyConnection.Deactivate | src/components/EtsyConnection.tsx:95-98 | `is_active` becomes false on that row alone; the other rows and the set of rows are unchanged |
| EtsyConnection.DeactivatedIsNotMatched | src/components/EtsyConnection.tsx:95-98 | after a disconnect the sync function matches exactly the rows it matched before, minus that one |
| EtsyConnection.StampSync | src/components/EtsyConnection.tsx:128-131 | `last_sync_at` becomes now on that row alone |
| EtsyConnection.AfterLookup | src/components/EtsyConnection.tsx:31-49 | a found row becomes the connection; PGRST116 ("no row") gives no connection; any other error is only logged and the previous value stays |
| EtsyConnection.Panel.constructor | src/components/EtsyConnection.tsx:23-24 | no connection, loading, no notices, the given table |
| EtsyConnection.Panel.CheckConnection | src/components/EtsyConnection.tsx:31-49 | the connection becomes AfterLookup of the old one and loading ends |
| EtsyConnection.Panel.Disconnect | src/components/EtsyConnection.tsx:91-115 | nothing happens without a connection; otherwise that id is sent, and on success the row is deactivated, the connection forgotten and "Shop Disconnected" shown; on failure only "Error" is shown |
| EtsyConnection.Panel.SyncShop | src/components/EtsyConnection.tsx:117-147 | nothing happens without a connection; otherwise the shop id is sent, and only after the sync succeeds is the sync time set on the panel, with "Sync Complete", and written to the row unless that update fails, whose error is ignored; on a sync failure only "Sync Error" is shown |
| EtsyCallback.ShopNameText | src/pages/EtsyCallback.tsx:54 | the shop name text is missing (reading it throws) iff the answer has no shop or a null one |
| EtsyCallback.OneCloseAtEnd | src/pages/EtsyCallback.tsx:23-67 | effects without a close followed by one close hold exactly one close |
| EtsyCallback.HandleCallback | src/pages/EtsyCallback.tsx:12-68 | every path ends with exactly one window close; error wins over code; no code gives the no-code notice; the exchange is invoked iff there is no error and a code; the success notice, naming the shop, shows iff the answer has success and a shop; a failed call or a null answer gives the failure notice; an answer without a truthy success closes the window with no notice |
| OptimizeListing.BandOf | src/components/OptimizeListing.tsx:232-242 | a score is green iff at least 8, yellow iff at least 6 and below 8, red iff below 6 |
| OptimizeListing.BandMonotone | src/components/OptimizeListing.tsx:232-242 | a higher score never falls into a worse band |
| OptimizeListing.ColorAndBadgeAgree | src/components/OptimizeListing.tsx:232-242 | the text colour and the badge classes of a score both follow the same band |
| OptimizeListing.BandColorsDistinct | src/components/OptimizeListing.tsx:232-242 | different bands get different colours and different badges |
| OptimizeListing.MergeField | src/components/OptimizeListing.tsx:206-215 | saving a field gives the listing that field's edit value and keeps its id, external id and every other field |
| OptimizeListing.MergeUnchangedField | src/components/OptimizeListing.tsx:206-215 | saving a field whose input still holds the listing's value leaves the listing as it was |
| OptimizeListing.ValuesOf | src/components/OptimizeListing.tsx:135-139 | the inputs of a selected listing start with each of its field values |
| OptimizeListing.FindListing | src/components/OptimizeListing.tsx:132 | no listing is found iff none has that id; a found one is in the list and has that id |
| OptimizeListing.AnalysisOf | src/components/OptimizeListing.tsx:169 | reading the analysis throws iff the body is null; for an object it is the `analysis` field |
| OptimizeListing.RunAnalysis | src/components/OptimizeListing.tsx:143-196 | nothing happens without a selected listing; the record is first inserted as 'analyzing' with the listing and the user; the analysis is invoked only after the insert succeeds; the run succeeds iff the insert, the call and reading the body all succeed, and only then is the record updated to 'completed' with the analysis, which is also what the page shows |
| OptimizeListing.CompletedOnlyAfterSuccess | src/components/OptimizeListing.tsx:149-179 | a 'completed' write happens only as the third write of a successful run, after the 'analyzing' insert and the call |
| OptimizeListing.Page.constructor | src/components/OptimizeListing.tsx:58-63 | the page starts with the loaded listings, nothing selected, empty inputs, no field in edit, no results and no spinner |
| OptimizeListing.Page.SelectListing | src/components/OptimizeListing.tsx:131-141 | a known id selects that listing and loads its values into the inputs; an unknown id changes nothing |
| OptimizeListing.Page.Edit | src/components/OptimizeListing.tsx:198-200 | the chosen field is put in edit |
| OptimizeListing.Page.Save | src/components/OptimizeListing.tsx:202-230 | nothing is sent without a selected listing; otherwise that listing's id and the one field's input are sent, and only on success is the field merged into the selected listing and the edit closed |
| OptimizeListing.Page.Analyse | src/components/OptimizeListing.tsx:143-196 | the writes are those of the analysis run; the shown results are replaced only by a successful run; the spinner is off once a run ends |
| BusinessPlan.ContextText | supabase/functions/generate-business-plan/index.ts:27 | the business named is the context when one is given and "small business" otherwise |
| BusinessPlan.DefaultPromptListsFields | supabase/functions/generate-business-plan/index.ts:27-37 | without a custom prompt, the prompt names the business and lists the title, goal, timeline, budget, audience and description under their labels |
| BusinessPlan.CustomPromptFilled | supabase/functions/generate-business-plan/index.ts:20-26 | a custom template built from placeholder-free text is sent with each placeholder replaced by its field, `$` patterns expanded; '$'-free fields go in verbatim |
| BusinessPlan.FillWithoutPlaceholders | supabase/functions/generate-business-plan/index.ts:20-26 | text without a '{' is sent as it is |
| BusinessPlan.PageFilledPromptUnchanged | supabase/functions/generate-business-plan/index.ts:20-26 | a prompt the new-plan page already filled, with no '{' left and no field quoting the template, is sent unchanged |
| BusinessPlan.FallbackTextsNonEmpty | supabase/functions/generate-business-plan/index.ts:90-96 | every text of the fallback plan is non-empty |
| BusinessPlan.FallbackTaskTexts | supabase/functions/generate-business-plan/index.ts:97-130 | each of the eight fallback tasks has a non-empty title and description |
| BusinessPlan.TaskObjectComplete | supabase/functions/generate-business-plan/index.ts:98-101 | a task built from a non-empty title and description carries both as strings |
| BusinessPlan.PlanObjectShape | supabase/functions/generate-business-plan/index.ts:90-131 | a plan object holds its texts, in order, followed by its tasks array |
| BusinessPlan.CompletePlan | supabase/functions/generate-business-plan/index.ts:90-131 | any plan object built from six keyed non-empty texts and eight non-empty task pairs has the seven plan keys in order, non-empty texts and eight complete tasks |
| BusinessPlan.FallbackKeys | supabase/functions/generate-business-plan/index.ts:90-96 | the fallback's texts carry the plan's six text keys in order |
| BusinessPlan.FallbackShape | supabase/functions/generate-business-plan/index.ts:85-131 | the fallback plan has the seven plan keys in order, six non-empty texts and eight complete tasks |
| BusinessPlan.ContentBody | supabase/functions/generate-business-plan/index.ts:80-132 | the content parsed when it parses, the fallback plan when it does not |
| BusinessPlan.GenerateBusinessPlan | supabase/functions/generate-business-plan/index.ts:17-146 | the prompt sent is the one above (a custom prompt after the replace chain, `$` patterns expanded); the status is 200 iff the provider answers; a provider failure gives 500 with "Failed to generate business plan" and the status; content that parses is returned as it is, content that does not gives the fallback plan |
| AnalyzeListing.Interpolated | supabase/functions/analyze-listing/index.ts:23-25 | a missing field reads "undefined"; a present one reads as `String()` of its JSON value, a number as its JSON text |
| AnalyzeListing.TagsText | supabase/functions/analyze-listing/index.ts:26 | tags that are not truthy read "Not provided" |
| AnalyzeListing.PromptListsListing | supabase/functions/analyze-listing/index.ts:19-27 | the prompt lists the title, description, price (after a dollar sign) and tags under their labels |
| AnalyzeListing.MissingTagsNotProvided | supabase/functions/analyze-listing/index.ts:26 | without tags the prompt says "- Tags/Keywords: Not provided" |
| AnalyzeListing.Analysis | supabase/functions/analyze-listing/index.ts:113-122 | content that parses is the analysis; otherwise the analysis is the fixed parse error carrying the exact text |
| AnalyzeListing.AnalyzeListing | supabase/functions/analyze-listing/index.ts:16-133 | the prompt sent is the one above; the status is 200 iff the provider answers; a provider failure gives 500 with "OpenAI API error: " and the status text; otherwise the body is `{ analysis }` |

## Left out

- The database, the HTTP calls to Etsy and to the language model, the Supabase client and authentication are not modelled as services. Each call is a parameter: its outcome (a row, an error, a flag) or the result of the foreign function (`getUser`, `JSON.parse`, `encodeURIComponent`, `parseInt`, `parseFloat`).
- Rendering, toasts that only inform, spinners other than the ones named above, routing and dialogs opening and closing are left out unless a contract names them.
- The clock is one integer of milliseconds per call. Where the source reads `Date.now()` twice, as etsy-oauth and etsy-sync do, the model uses the same instant for both reads.
- Floating point: prices, costs and scores are exact `real`s, and `toFixed` rounding in displayed text is not modelled. A NaN from `parseFloat` is `None`.
- JavaScript object key order and duplicate JSON keys are not modelled. `Common.Field` takes the first entry with a key, so an object is a list of entries.
- The fixed instruction texts that close the two AI prompts (the JSON structure asked for, and the list of aspects to analyse) and the system messages are parameters or left out. The model states where the listing's and the plan's fields appear in the prompt, not the wording of those instructions.
- The model's `temperature`, `max_tokens`, the model name and the CORS headers and preflight answers are left out.
- A thrown TypeError on malformed provider data (a listing without `price`, an answer without `choices[0]`) is not modelled. The provider's answers are assumed well formed, apart from the cases named in the contracts.
- EtsySync.Price: requires a non-zero divisor, and the provider's listings are taken to have a positive one (ValidListing, demanded through ProviderValid). The source would produce `Infinity` or `NaN` for a zero divisor.
- Production.CalculateBatch: follows the corrected guard CalculateGuard, so a batch size `parseInt` cannot read (".5") is invalid input. The page as written goes on and computes lines with a NaN batch size (see Findings), which `real`s cannot express. Production.BatchPlanner.Calculate likewise.
- Common.ToLower: lower-cases only the capitals of Basic Latin, Latin-1 and Latin Extended-A that map to one character. Other scripts, and İ (U+0130), which `toLowerCase` turns into two characters, are left as they are.
- NewPlanPage.FillTemplate: says nothing of fields holding `$&`, `` $` `` or `$'`, which insert parts of the partly filled template; Common.ReplaceFirstSpec covers them one replacement at a time. BusinessPlan.CustomPromptFilled and BusinessPlan.PageFilledPromptUnchanged likewise.
- Common.JsString: a number reads as the text it had in the JSON answer. JavaScript prints `1.50` as `1.5` and `1e2` as `100`; that number formatting is not modelled. This holds wherever a JSON value becomes text: AnalyzeListing.Interpolated (the listing's fields in the prompt), NewPlanPage.RenderContent (its "key: value" entries) and EtsyCallback.ShopNameText (the shop name).
- AnalyzeListing.Interpolated: a number is its JSON text, as Common.JsString says.
- NewPlanPage.RenderContent: a number in an entry is its JSON text, as Common.JsString says.
- EtsyCallback.ShopNameText: a numeric shop name is its JSON text, as Common.JsString says.
- EtsySync.EtsyStore.Sync: models one page of active listings. The `limit`/`offset` paging of the provider's API is not followed, as in the source.
- EtsySync.EtsyStore.Sync: the listing upsert has no conflict key in the source, so a row is appended for each synced listing. No unique constraint of the database is modelled.
- EtsySync.EtsyStore.Sync: the update of a refreshed token is not checked for an error in the source, and is modelled as succeeding.
- EtsySync.EtsyStore.Sync: at most one platform row of type `etsy` is assumed, held as `Store.etsyPlatform`. With two such rows, `.single()` again reports PGRST116 and the source creates a third; this is not modelled. A lookup error other than PGRST116 is modelled (`Provider.platformLookupError`).
- EtsySync.ConnectionQuery: only "exactly one active row" and "otherwise an error" are modelled. The error's code and message are not.
- EtsyConnection.AfterLookup: a lookup error other than PGRST116 is only logged by the source, and the model keeps the previous connection. The error text is not modelled.
- EtsyConnection.DaysUntilExpiry: computes the ceiling of the division exactly on integers. Floating-point `Math.ceil` is the same for every millisecond difference small enough to be exact in a double.
- EtsyOAuth.HandleOAuth: the `state` parameter is sent but never verified on the callback, as in the source. An unparsable date or a missing `expires_in` in the token answer is not modelled.
- EtsyConnection.Panel: the popup window of `initiateConnection`, the one-second interval that polls whether it has closed, and the one-second timeout before the connection is checked again (src/components/EtsyConnection.tsx:62-77) are not modelled. They only open the authorization URL that EtsyOAuth.ConnectParams builds and then re-check the connection.
- OptimizeListing.Page: `fetchOptimization` (loading a stored optimisation by id) and `fetchListings` are not modelled. The page is built from already loaded listings.
- OptimizeListing.Page.Save: the toast text that capitalises the field name is not modelled.
- EtsySync.Step: the fragrances are a map keyed by SKU, so the failure of the `.single()` lookup when two fragrances share a SKU is not modelled.
- DocEditor.NewTab: ids come from the clock. The model proves them distinct from the initial ids and from one another when taken at different clock readings, and does not model two tabs created in the same millisecond.
- NewPlanPage.SavePlan: a task entry that is `null` in the generated plan is not modelled.
- The TipTap editor commands of the document editor (bold, headings, lists) act on a third-party document model and are left out.
- The database functions `calculate_product_cogs` and `get_fragrance_status` are not modelled. Their results are inputs.
- The simulated Etsy sync timers of the inventory screens are left out; they only wait and show a toast.
- Authentication in the edge functions: the model tests the header as the source does (a missing or empty header is refused) and removes the first "Bearer ". The token check is the result of `getUser`, a parameter.

## Findings

| source | as written | input that shows it | evidently intended | confidence | as-written member | corrected member |
|---|---|---|---|---|---|---|
| src/components/Production.tsx:106 | the guard refuses a batch size only when it is empty or `parseInt` gives a number ≤ 0; a `parseInt` that gives NaN passes, because `NaN <= 0` is false | batch size ".5" with a product chosen (Production.GuardAdmitsUnparsableSize) | refuse any batch size that does not parse to a positive integer | not executed | Production.CalculateGuardAsWritten | Production.CalculateGuard |

## Notes on the code

- FragranceForm.Form.constructor: the inventory page mounts the form once, while nothing is being edited (src/pages/Index.tsx:140-146). The form's state is set only at mount, so `InitialForm(Some(item))` is never reached from that page. Opening the dialog to edit an item shows whatever the form last held, and saving merges those values into the edited item. A second "Add" likewise starts from the previous entry. The model follows the code: only the constructor sets the form from an item.
- CsvImport.CleanField: the importer trims a field before it removes the surrounding quotes, so a quoted field keeps the spaces inside its quotes. The model follows the code, and CsvImport.QuotedFieldKeepsInnerSpaces proves it for every quoted field.
