# Unit-of-measure and batch-entry model of the inventory client

This project models, in Dafny, the part of the inventory client that has behaviour of its
own: how the three transaction forms — goods out (`BarangKeluar`), stock count
(`StockOpname`) and goods in (`BarangMasuk`) — handle the units of an item and build the
batch of lines that is sent to the server.

An item (`Units.Barang`) has a default unit and up to two alternate units. Each alternate
has a factor: one alternate unit is that many default units. The model covers:

- **Legal units** (`Units.LegalUnits`, `Units.GetSatuanOptions`): the default unit first, then
  each alternate with a non-empty name. Duplicate names are kept.
- **Conversion** (`Units.StokInUnit`, `Units.QuantityDefault`): the unit is matched by name
  in the order default, alternate 1, alternate 2. An alternate is used only when its factor
  is non-zero. Any other name passes through unchanged. Both conversions are tied to one
  reference factor, `Units.UnitFactor`, and proved to be inverses for every unit name.
- **Outbound stock check** (`BarangKeluar.ValidateQuantity`): the quantity converted to the
  default unit must not exceed `stok`. Exact depletion passes.
- **Stock-count variance** (`StockOpname.SelisihDisplay`, `StockOpname.NeedsCorrection`): the
  physical count minus the system figure in the chosen unit. A variance needs correction
  when it is more than 0.01 from zero. As in the code, the system figure is the item's
  `minStok`, not its `stok`.
- **Batch building**: each form is a class (`OutboundForm`, `OpnameForm`, `InboundForm`).
  Its `items` field is the batch, and its other fields are the add-item row. `AddItem` runs
  the form's checks in order and stops at the first failure, changing nothing; on success
  it appends one line and clears the row. `RemoveItem` deletes by position. `HandleSubmit`
  refuses an empty batch. The outbound and stock-count forms keep item ids pairwise
  distinct, as their class invariant `Valid()`.

The helpers that the forms copy from one another are stated once: the unit list
(FRONTEND_BARANG_KELUAR.tsx:85-91, FRONTEND_STOCK_OPNAME.tsx:86-92,
FRONTEND_BARANG_MASUK.tsx:108-114) and the stock conversion (FRONTEND_BARANG_KELUAR.tsx:94-103,
FRONTEND_STOCK_OPNAME.tsx:95-104). The three forms each declare a part of the catalogue
record; `Units.Barang` carries the fields any of them reads, so both `stok` and `minStok`.
The browser's `parseFloat` becomes a function given to each form's constructor, whose
`None` result stands for NaN.

Behaviour of the code that one might not expect, which the model follows as written:

- The unit list is not de-duplicated. A non-empty unit that is not among the item's units
  is not refused either: it is converted as a default-unit amount (`BarangKeluar.UnlistedUnitAccepted`).
- Conversion multiplies by the factor on the way to the default unit, so 6 boxes of 12
  against 60 pieces fail the stock check while 5 boxes pass (`BarangKeluar.BoxesAgainstPieces`).
- The outbound refusal message quotes the default-unit stock captured when the item was
  picked, next to the chosen unit's name. It does not convert that stock into the chosen
  unit (FRONTEND_BARANG_KELUAR.tsx:80, 159).
- The variance is measured against `minStok` (`StockOpname.VarianceIgnoresOnHandStock`).
- At submission the stock count converts alternate 1, then alternate 2, without first
  testing the default unit. An alternate named like the default unit is therefore applied
  to a count that was shown in default units (`StockOpname.SubmissionSkipsDefaultCheck`).
- `calculateStokInUnit` in the outbound form is never called there. It is modelled all the same.

## Model

| member | source | states |
|---|---|---|
| `Units.LegalUnits` | FRONTEND_BARANG_KELUAR.tsx:85-91 | the default unit is first; the length is 1 plus the number of non-empty alternates; the non-empty alternates follow in slot order; a name is a member iff it is the default or a non-empty alternate |
| `Units.GetSatuanOptions` | FRONTEND_BARANG_MASUK.tsx:108-114 | building the list by pushes gives `[]` for no item and `LegalUnits` otherwise |
| `Units.LegalUnitsKeepsDuplicates` | FRONTEND_STOCK_OPNAME.tsx:86-92 | an alternate named like the default appears a second time |
| `Units.UnitFactor` | FRONTEND_BARANG_KELUAR.tsx:106-115 | the factor the conversions apply is never zero; it is 1 for the default unit and for a non-empty unlisted name; otherwise, branch by branch in the code's order, it is alternate 1's factor when alternate 1 matches with a non-zero factor, else alternate 2's factor when alternate 2 matches with a non-zero factor, else 1 |
| `Units.StokInUnit` | FRONTEND_BARANG_KELUAR.tsx:94-103 | the result times the unit's factor is the default-unit stock |
| `Units.QuantityDefault` | FRONTEND_BARANG_KELUAR.tsx:106-115 | the result is the quantity times the unit's factor |
| `Units.StokInUnitThenBack` | FRONTEND_BARANG_KELUAR.tsx:94-115 | converting into any unit and back to the default unit gives the amount again |
| `Units.QuantityDefaultThenBack` | FRONTEND_BARANG_KELUAR.tsx:94-115 | converting to the default unit and back gives the quantity again |
| `Units.DefaultUnitIsIdentity` | FRONTEND_BARANG_KELUAR.tsx:107-108 | the default unit converts as itself in both directions, even if an alternate shares its name |
| `Units.UnlistedUnitPassesThrough` | FRONTEND_BARANG_KELUAR.tsx:114 | a non-empty name outside the unit list leaves the value unchanged in both directions |
| `Units.ZeroFactorPassesThrough` | FRONTEND_BARANG_KELUAR.tsx:109-114 | alternate 1 with factor zero leaves the value unchanged in both conversions |
| `Units.SecondZeroFactorPassesThrough` | FRONTEND_BARANG_KELUAR.tsx:99-114 | alternate 2 with factor zero, not shadowed by a convertible alternate 1, leaves the value unchanged in both conversions |
| `Units.SecondAlternateApplied` | FRONTEND_BARANG_KELUAR.tsx:99-112 | alternate 2 with a non-zero factor, not shadowed by the default unit or a convertible alternate 1, multiplies a quantity by its factor and divides a stock by it |
| `Units.FirstAlternateWins` | FRONTEND_BARANG_KELUAR.tsx:109-112 | alternate 1 with a non-zero factor is applied even if alternate 2 has the same name |
| `Batch.RemoveAt` | FRONTEND_BARANG_KELUAR.tsx:197-199 | in range: one element fewer, the others in order, the multiset minus the removed element; out of range: unchanged |
| `Batch.FilterOutIndex` | FRONTEND_BARANG_KELUAR.tsx:198 | filtering out one position in a single scan gives `RemoveAt` |
| `Batch.FindIndex` | FRONTEND_BARANG_KELUAR.tsx:165 | returns -1 iff no line has the id; otherwise the first position with that id |
| `Batch.AppendKeepsDistinct` | FRONTEND_BARANG_KELUAR.tsx:164-186 | appending a line whose id is new keeps the ids distinct |
| `Batch.RemoveAtKeepsDistinct` | FRONTEND_STOCK_OPNAME.tsx:200-202 | deleting a position keeps the ids distinct |
| `BarangKeluar.ValidateQuantity` | FRONTEND_BARANG_KELUAR.tsx:118-122 | false without an item; otherwise true iff the quantity times the unit's factor is at most `stok` |
| `BarangKeluar.ExactDepletionPasses` | FRONTEND_BARANG_KELUAR.tsx:118-122 | asking for exactly the whole stock, in any unit, passes |
| `BarangKeluar.CheckAdd` | FRONTEND_BARANG_KELUAR.tsx:125-173 | accepted iff all five checks pass; each error holds iff the earlier checks pass and its own fails (item, quantity > 0, unit, stock, duplicate); the stock error quotes the shown stock and unit |
| `BarangKeluar.BoxesAgainstPieces` | FRONTEND_BARANG_KELUAR.tsx:154-162 | 5 boxes of 12 against 60 pieces pass; 6 are refused, quoting 60 "box" |
| `BarangKeluar.UnlistedUnitAccepted` | FRONTEND_BARANG_KELUAR.tsx:145-162 | a non-empty unit outside the item's units is accepted when the raw quantity fits the stock |
| `BarangKeluar.NewLine` | FRONTEND_BARANG_KELUAR.tsx:175-184 | the appended line carries the id, name and code, the quantity and unit as entered, the unit list, the shown stock, and `stok` as the default-unit stock |
| `BarangKeluar.AcceptedLineKeepsBatchValid` | FRONTEND_BARANG_KELUAR.tsx:164-186 | an accepted line keeps ids distinct and every quantity positive with a unit |
| `BarangKeluar.RemovalKeepsBatchValid` | FRONTEND_BARANG_KELUAR.tsx:197-199 | deleting a position keeps the batch valid |
| `BarangKeluar.OutboundForm.constructor` | FRONTEND_BARANG_KELUAR.tsx:39-51 | the form starts with an empty batch and an empty add-item row |
| `BarangKeluar.OutboundForm.SelectBarang` | FRONTEND_BARANG_KELUAR.tsx:76-82 | picking an item sets the unit to the default unit and the shown stock to `stok`; the batch and the quantity are unchanged |
| `BarangKeluar.OutboundForm.SetQuantity` | FRONTEND_BARANG_KELUAR.tsx:359 | the quantity field becomes the typed text |
| `BarangKeluar.OutboundForm.SetSatuan` | FRONTEND_BARANG_KELUAR.tsx:373 | the unit field becomes the chosen unit |
| `BarangKeluar.OutboundForm.IsQuantityExceeded` | FRONTEND_BARANG_KELUAR.tsx:246-250 | true iff an item is picked, text is entered, and the text is not a number or its default-unit quantity exceeds `stok` |
| `BarangKeluar.OutboundForm.AddItem` | FRONTEND_BARANG_KELUAR.tsx:125-194 | the error is `CheckAdd` of the old state; on error nothing changes; on success exactly `NewLine` is appended and the add-item row is cleared; ids stay distinct |
| `BarangKeluar.OutboundForm.RemoveItem` | FRONTEND_BARANG_KELUAR.tsx:197-199 | the batch becomes `RemoveAt` of the old batch; nothing else changes |
| `BarangKeluar.OutboundForm.HandleSubmit` | FRONTEND_BARANG_KELUAR.tsx:202-219 | refused iff the batch is empty; otherwise the lines are sent unconverted |
| `BarangKeluar.IssueSameItemTwice` | FRONTEND_BARANG_KELUAR.tsx:164-173 | a second add of the same item, with another quantity, is refused as already listed, and the batch keeps one line |
| `StockOpname.StokSistemInUnit` | FRONTEND_STOCK_OPNAME.tsx:121-123 | the system figure times the unit's factor is `minStok` |
| `StockOpname.SelisihDisplay` | FRONTEND_STOCK_OPNAME.tsx:107-118 | in every branch the variance is the count minus `StokSistemInUnit`; positive iff more was counted, negative iff less |
| `StockOpname.NeedsCorrection` | FRONTEND_STOCK_OPNAME.tsx:164 | the variance flag holds iff the variance is above 0.01 or below -0.01 |
| `StockOpname.NeedsCorrectionIff` | FRONTEND_STOCK_OPNAME.tsx:164 | the flag holds iff count and system figure differ by more than 0.01 in the chosen unit |
| `StockOpname.VarianceIgnoresOnHandStock` | FRONTEND_STOCK_OPNAME.tsx:107-123 | the variance does not change with `stok`; the reference is `minStok` |
| `StockOpname.ThresholdInChosenUnit` | FRONTEND_STOCK_OPNAME.tsx:164 | the same shortfall of 5 boxes is flagged in boxes but not as 0.005 cartons of 1000 |
| `StockOpname.ShortfallOfThree` | FRONTEND_STOCK_OPNAME.tsx:107-109 | 97 counted against 100 in the default unit gives -3 and is flagged |
| `StockOpname.FindBarang` | FRONTEND_STOCK_OPNAME.tsx:221 | `None` iff no catalogue item has the id; otherwise the first item with that id |
| `StockOpname.NormalizeLine` | FRONTEND_STOCK_OPNAME.tsx:220-237 | a line whose item is missing passes through as entered; otherwise it takes the default unit, keeps id and note, and outside the default unit its count equals `QuantityDefault` |
| `StockOpname.DefaultUnitSubmittedUnchanged` | FRONTEND_STOCK_OPNAME.tsx:224-230 | a count in the default unit is sent unchanged unless that name also names a convertible alternate |
| `StockOpname.SubmissionSkipsDefaultCheck` | FRONTEND_STOCK_OPNAME.tsx:224-229 | with alternate 1 named like the default (factor 12), 2 counted and shown as 2 is sent as 24 |
| `StockOpname.NormalizeBatch` | FRONTEND_STOCK_OPNAME.tsx:220-237 | the submitted batch has the same length and order, each line normalised |
| `StockOpname.CheckAdd` | FRONTEND_STOCK_OPNAME.tsx:133-175 | accepted iff item, count a number at least 0, unit, and a new id; each error holds iff the earlier checks pass and its own fails; never a stock error |
| `StockOpname.CheckIgnoresStock` | FRONTEND_STOCK_OPNAME.tsx:162-175 | the outcome does not depend on `stok` or `minStok`, so no variance refuses a line |
| `StockOpname.NewLine` | FRONTEND_STOCK_OPNAME.tsx:177-187 | the line carries the item's id, name and code, the count, unit and note as entered, the system figure in that unit, the variance as count minus system figure, and the unit list |
| `StockOpname.AcceptedLineKeepsBatchValid` | FRONTEND_STOCK_OPNAME.tsx:166-189 | an accepted line keeps ids distinct and every line consistent (count at least 0, a unit, variance = count - system figure) |
| `StockOpname.RemovalKeepsBatchValid` | FRONTEND_STOCK_OPNAME.tsx:200-202 | deleting a position keeps the batch valid |
| `StockOpname.OpnameForm.constructor` | FRONTEND_STOCK_OPNAME.tsx:39-53 | the form starts with no catalogue, an empty batch and an empty add-item row |
| `StockOpname.OpnameForm.LoadBarangList` | FRONTEND_STOCK_OPNAME.tsx:63-65 | the catalogue becomes the list the lookup returned |
| `StockOpname.OpnameForm.SelectBarang` | FRONTEND_STOCK_OPNAME.tsx:78-83 | picking an item sets the unit to its default unit; batch, count and note are unchanged |
| `StockOpname.OpnameForm.SetStokFisik` | FRONTEND_STOCK_OPNAME.tsx:380 | the count field becomes the typed text |
| `StockOpname.OpnameForm.SetSatuan` | FRONTEND_STOCK_OPNAME.tsx:389 | the unit field becomes the chosen unit |
| `StockOpname.OpnameForm.SetItemKeterangan` | FRONTEND_STOCK_OPNAME.tsx:435 | the note field becomes the typed text |
| `StockOpname.OpnameForm.StokSistemDisplay` | FRONTEND_STOCK_OPNAME.tsx:269 | with an item and a unit, the shown figure times the unit's factor is `minStok`; otherwise 0 |
| `StockOpname.OpnameForm.HasSelisihDisplay` | FRONTEND_STOCK_OPNAME.tsx:270-271 | the live flag holds iff item, unit and a numeric count are entered and they differ from the system figure by more than 0.01 |
| `StockOpname.OpnameForm.AddItem` | FRONTEND_STOCK_OPNAME.tsx:133-197 | the error is `CheckAdd` of the old state; on error nothing changes; on success exactly `NewLine` is appended and the row is cleared; ids stay distinct |
| `StockOpname.OpnameForm.RemoveItem` | FRONTEND_STOCK_OPNAME.tsx:200-202 | the batch becomes `RemoveAt` of the old batch; nothing else changes |
| `StockOpname.OpnameForm.HandleSubmit` | FRONTEND_STOCK_OPNAME.tsx:205-243 | refused iff the batch is empty; otherwise the sent lines are the batch's lines normalised against the catalogue, same length and order |
| `BarangMasuk.CheckAdd` | FRONTEND_BARANG_MASUK.tsx:117-144 | accepted iff item, quantity > 0 and unit; each error holds iff the earlier checks pass and its own fails; never a stock or duplicate error |
| `BarangMasuk.CheckIgnoresStock` | FRONTEND_BARANG_MASUK.tsx:146-155 | the outcome does not depend on `stok` |
| `BarangMasuk.NewLine` | FRONTEND_BARANG_MASUK.tsx:146-153 | the line carries the item, and the quantity and unit as entered, unconverted, with the unit list |
| `BarangMasuk.RemovalKeepsBatchValid` | FRONTEND_BARANG_MASUK.tsx:165-167 | deleting a position keeps every quantity positive with a unit |
| `BarangMasuk.InboundForm.constructor` | FRONTEND_BARANG_MASUK.tsx:44-62 | the form starts with no lines, no photos and an empty add-item row |
| `BarangMasuk.InboundForm.SelectBarang` | FRONTEND_BARANG_MASUK.tsx:100-105 | picking an item sets the unit to its default unit; lines, photos and quantity are unchanged |
| `BarangMasuk.InboundForm.SetQuantity` | FRONTEND_BARANG_MASUK.tsx:447 | the quantity field becomes the typed text |
| `BarangMasuk.InboundForm.SetSatuan` | FRONTEND_BARANG_MASUK.tsx:455 | the unit field becomes the chosen unit |
| `BarangMasuk.InboundForm.AddItem` | FRONTEND_BARANG_MASUK.tsx:117-162 | the error is `CheckAdd` of the old state; on error nothing changes; on success exactly `NewLine` is appended, the row is reset to no item, `''` and `''`, and the photos are unchanged |
| `BarangMasuk.InboundForm.RemoveItem` | FRONTEND_BARANG_MASUK.tsx:165-167 | the lines become `RemoveAt` of the old lines; the photos are untouched |
| `BarangMasuk.InboundForm.AppendPhoto` | FRONTEND_BARANG_MASUK.tsx:188 | an uploaded photo's link is added at the end of the photo list; the lines are untouched |
| `BarangMasuk.InboundForm.RemovePhoto` | FRONTEND_BARANG_MASUK.tsx:214-216 | the photos become `RemoveAt` of the old photos; the lines are untouched |
| `BarangMasuk.InboundForm.HandleSubmit` | FRONTEND_BARANG_MASUK.tsx:219-242 | refused iff there are no lines; otherwise the lines are sent unconverted, with the photos |
| `BarangMasuk.ReceiveSameItemTwice` | FRONTEND_BARANG_MASUK.tsx:146-155 | adding the same item twice gives two lines with the same id |

## Left out

- Remote calls: loading the catalogue and suppliers, the three submit calls and the photo upload go to a remote service. The model stops at the value such a call would receive (`HandleSubmit`'s payload) or return (`LoadBarangList`, `AppendPhoto`). It does not model the `loading` flag or the success and failure handling either.
- Photo upload: reading each file with `FileReader` and uploading it (FRONTEND_BARANG_MASUK.tsx:170-211) is browser I/O. Only the resulting append of the link is modelled.
- Transaction header fields: date, notes, PO number, delivery-note number and supplier are copied unchanged into the payload. The model does not carry them.
- Autocomplete: the `filteredBarang` filter and the dropdown depend on `toLowerCase` and `includes` with Unicode semantics; they are not modelled.
- The effect that pre-fills the count with the system figure when the unit changes (FRONTEND_STOCK_OPNAME.tsx:126-130) is reactive UI wiring. `SetStokFisik` covers any text the field can hold.
- Rendering: toast texts, colours, disabled buttons and list rendering are left out. The list rendering includes the per-line "needs correction" mark, which tests a variance above 0 rather than 0.01 (FRONTEND_STOCK_OPNAME.tsx:466-468).
- `parseFloat`: text parsing is browser code. It is a function given to each form, and NaN is its `None` result.
- Floating point: numbers are exact reals. Rounding, infinities and NaN other than a parse failure are not modelled. A factor counts as "truthy" when it is non-zero.
- `Units.Barang` omits `kategori`, which no modelled operation reads.
- `StockOpname.NormalizeLine`: its contract gives the default-unit case only through `StockOpname.DefaultUnitSubmittedUnchanged` and `StockOpname.SubmissionSkipsDefaultCheck`, not in its own ensures.
