# Invoice builder — a verified model of its computation and layout core

The invoice builder is a single-page form. The user enters header fields
(invoice number, dates, client details, payment instructions) and a list of
line items. Each item is a card with a description, a price, a quantity and a
discount percentage. The page keeps the items in a `serviceItems` array and
hands out ids with an `itemCounter`. It keeps each item's total up to date
and shows the invoice totals. On request it checks the form and then exports
a PDF or opens an HTML preview of the same invoice.

This Dafny project models the logic of `script.js`:

- `wrappers.dfy` (`Wrappers`): `Option` and `Result`.
- `text.dfy` (`Text`):
  - JavaScript's `trim` and the blank test `!s.trim()`;
  - `split('\n')` with its inverse;
  - the count of non-blank address lines.
- `money.dfy` (`Money`):
  - the coercion `parseFloat(field) || default` of the three numeric inputs;
  - the line arithmetic: subtotal, discount amount and total.

  Amounts are exact reals.
- `items.dfy` (`Items`):
  - the item record and how `calculateItemTotal` rebuilds it from a card;
  - `filter` by id and `findIndex`;
  - the description filter;
  - the `reduce` totals.
- `store.dfy` (`Store`): the class `ServiceItems`. It holds the item list, the
  id counter and the "Item N" card labels. It has the methods `addServiceItem`,
  `removeServiceItem`, `renumberItems`, `calculateItemTotal`,
  `calculateTotals` and `clearForm`.
- `validation.dfy` (`Validation`): `validateForm`. It checks four header fields
  in a fixed order, then looks for an item with a non-blank description.
- `render.dfy` (`Render`): the view-models of the two renderers. These are:
  - the table rows, built by a loop in the PDF export and by `filter`/`map`
    in the preview;
  - the totals;
  - the PDF client block's `yPos` cursor and the table's start;
  - the three-way page-break decision for the payment instructions;
  - the file name.

  `GeneratePdf` is proved to produce the preview's rows and totals.

Three behaviours of the code are easy to misread, and the model keeps them as
the code has them:

- The totals sum over every item, including items with an empty description,
  although only described items get a table row. An item without a
  description is therefore charged but not listed.
  `Render.AmountDueCoversUnlistedItems` states the consequence.
- Nothing clamps the discount or the subtotal. The form's inputs suggest
  non-negative values, but a discount above 100 percent is kept and gives a
  negative total (`Money.OverDiscountMakesTotalNegative`).
- The required header fields and the item descriptions are checked after
  trimming, so a value of spaces only counts as missing. The table filter
  tests the untrimmed description. So a description of spaces only gives a
  table row but does not make the form valid.

The cards on the page are appended and removed together with the array
entries, so the model takes the k-th card to be the k-th item. The values
typed into the cards reach the store as `ItemInput` values, one per card, in
card order.

## Model

| member | source | states |
|---|---|---|
| `Text.Trim` | script.js:554 | the result is `s` with an all-space prefix and an all-space suffix cut off, and it neither starts nor ends with JavaScript white space |
| `Text.TrimEmptyIffAllSpace` | script.js:554 | trimming leaves nothing exactly when every character is white space |
| `Text.BlankIffTrimEmpty` | script.js:554 | the blank test used throughout holds exactly when `trim` gives the empty string |
| `Text.IsBlank` | script.js:307 | the character-by-character blank test holds exactly when every character is JavaScript white space; with `Text.BlankIffTrimEmpty` it is `!s.trim()` as used at lines 307, 554 and 563 |
| `Text.SplitLines` | script.js:305 | splitting on line feeds gives at least one piece and no piece contains a line feed |
| `Text.JoinSplitLines` | script.js:305 | joining the pieces of a split with line feeds gives the text back |
| `Text.SplitJoinLines` | script.js:305 | splitting the join of pieces that contain no line feed gives the same pieces |
| `Text.CountNonBlank` | script.js:306-311 | the number of non-blank lines is at most the number of lines |
| `Text.AllBlankCountsZero` | script.js:306-311 | lines that are all blank count for nothing |
| `Text.CountNonBlankSnoc` | script.js:306-311 | counting line by line from the left adds one exactly for each non-blank line |
| `Money.OrDefault` | script.js:108-110 | `parseFloat(x) \|\| d` is `d` when the parse gave NaN or 0, and the parsed number otherwise |
| `Money.CoercePrice` | script.js:108 | a non-numeric price becomes 0; every parsed price, negatives included, is kept |
| `Money.CoerceQuantity` | script.js:109 | the quantity is never 0: a non-numeric or zero quantity becomes 1, any other number is kept |
| `Money.CoerceDiscount` | script.js:110 | a non-numeric discount becomes 0; every parsed discount, out-of-range ones included, is kept |
| `Money.LineSubtotal` | script.js:112 | price times quantity: one unit's price at quantity 1, 0 for a price of 0, and not negative when neither factor is |
| `Money.LineDiscount` | script.js:113 | the discount is a percentage of the subtotal: nothing at 0 percent, the whole subtotal at 100 percent |
| `Money.LineTotal` | script.js:114 | the subtotal minus the discount amount, unclamped: the subtotal at 0 percent and 0 at 100 percent |
| `Money.LineTotalFactored` | script.js:112-114 | the line total is price times quantity times the share the discount leaves |
| `Money.LineTotalBounded` | script.js:112-114 | with price at least 0, quantity above 0 and discount in 0..100, the discount amount and the total both lie between 0 and the subtotal |
| `Money.OverDiscountMakesTotalNegative` | script.js:112-114 | a discount above 100 percent on a positive subtotal gives a negative total |
| `Money.WorkedExample` | script.js:112-114 | 100 at quantity 2 with 10 percent off gives subtotal 200, discount 20 and total 180 |
| `Items.Recomputed` | script.js:104-131 | the rebuilt entry keeps the id, takes the card's description, stores the card's coerced price, quantity and discount, and its stored total agrees with them |
| `Items.FreshCardIsDefault` | script.js:47-74 | reading back a fresh card (empty price, quantity 1, discount 0) gives exactly the default entry that is pushed |
| `Items.DefaultItem` | script.js:67-74 | the pushed entry has the new id, no description, price 0, quantity 1, discount 0 and total 0, and that total agrees with its fields |
| `Items.IndexOfId` | script.js:121 | `findIndex` returns the first position holding the id, or -1 exactly when no entry has the id |
| `Items.WithoutId` | script.js:86 | the filtered list is no longer than the original |
| `Items.WithoutIdAbsent` | script.js:86 | filtering out an id that no entry carries changes nothing |
| `Items.WithoutIdAt` | script.js:86 | with increasing ids, filtering out the id at position k cuts out exactly position k |
| `Items.WithoutIdCutsOut` | script.js:80-89 | with increasing ids, removal is a no-op when the id is absent and otherwise cuts out the one matching position, keeping the rest in order |
| `Items.WithoutIdKeepsOrder` | script.js:86 | removal keeps the ids strictly increasing, hence unique |
| `Items.Described` | script.js:720 | the described items are no more than the items |
| `Items.DescribedMembers` | script.js:720 | an entry is a described item exactly when it is in the list with a non-empty description |
| `Items.DescribedSnoc` | script.js:320-321 | filtering item by item from the left, as the PDF loop does, gives the same list as the filter |
| `Items.InvoiceTotals` | script.js:395-400 | the amount due is the subtotal minus the total discount |
| `Items.SumSubtotals` | script.js:395 | the `reduce` starts at 0 and a single item contributes its own subtotal |
| `Items.SumDiscounts` | script.js:396-399 | the `reduce` starts at 0 and a single item contributes its own discount amount |
| `Items.SumSubtotalsNonNegative` | script.js:395 | with no negative price and no negative quantity the subtotal is not negative |
| `Items.NoDiscountsNoTotalDiscount` | script.js:396-399 | with every discount at 0 the total discount is 0 |
| `Items.SumSubtotalsAppend` | script.js:395 | the subtotal fold splits over concatenation |
| `Items.SumDiscountsAppend` | script.js:396-399 | the discount fold splits over concatenation |
| `Items.AmountDueIsSumOfLineTotals` | script.js:395-400 | the amount due equals the sum of the line totals of all items |
| `Items.TotalsSplitByDescription` | script.js:395-399 | the subtotal and the discount are those of the described items plus those of the undescribed ones |
| `Items.TotalsIgnoreDescriptions` | script.js:395-399 | the totals depend only on prices, quantities and discounts, not on descriptions or ids |
| `Items.ExampleCardsRecomputed` | script.js:108-114 | a card priced 50 reads back with total 50, and a card with an empty price reads back with price 0 and total 0 |
| `Items.ExampleItemsTotals` | script.js:395-400 | items of 50 and 0 at quantity 1 without discount total 50, 0 and 50 |
| `Items.EmptyPriceExample` | script.js:135-155 | two cards, one priced 50 and one with an empty price, give subtotal 50, discount 0 and 50 due |
| `Store.Positions` | script.js:95-100 | the labels written by renumbering are 1, 2, ..., n in card order |
| `Store.RecomputedAll` | script.js:141-143 | re-reading every card replaces each entry, in place, by its own card read back under its own id, so each keeps its id and position and its stored total agrees with its fields |
| `Store.IndexOfIdAt` | script.js:121 | with increasing ids, looking up the id found at position k gives k |
| `Store.FreshCardReadsBack` | script.js:618-619 | re-reading the single fresh card of a one-item list leaves the list as it was |
| `Store.ServiceItems.constructor` | script.js:2-3 | the page starts with no items, counter 0 and no labels |
| `Store.ServiceItems.Add` | script.js:28-74 | the counter moves on by one, exactly one default entry with the new id is appended, earlier entries are unchanged, and the new card is labelled with its id |
| `Store.ServiceItems.Renumber` | script.js:95-101 | the labels become 1..N in current order; ids are untouched |
| `Store.ServiceItems.Remove` | script.js:80-89 | when the id is present its one entry is cut out, the rest keep order and ids, and the labels become 1..N; when absent nothing changes; the counter never changes |
| `Store.ServiceItems.CalculateItemTotal` | script.js:104-132 | only the entry with the matching id is replaced, by the card read back, and the shown total is that entry's total; with no such entry nothing changes |
| `Store.ServiceItems.TakeCard` | script.js:142-152 | one pass of the `forEach`: the card is re-read and the entry found by id contributes its subtotal and discount amount, or nothing when absent |
| `Store.ServiceItems.CalculateTotals` | script.js:135-161 | every entry is replaced by its card read back, and the accumulated totals are the `reduce` totals of the new list |
| `Store.ServiceItems.Clear` | script.js:601-622 | after confirmation exactly one default entry with id 1, labelled 1, remains and the counter is 1; without confirmation nothing changes |
| `Store.LabelsAfterRemoveThenAdd` | script.js:28-100 | add, add, remove the first, add: ids 2 and 3 remain, labelled "Item 1" and "Item 3" |
| `Validation.FirstBlank` | script.js:552-558 | the loop stops at the first required field whose trimmed value is empty, all earlier ones being filled in, and passes only when every one is filled in |
| `Validation.ValueOf` | script.js:552-554 | the field at position k of the checking order reads the k-th required input: invoice number, invoice date, due date, client name |
| `Validation.HeaderComplete` | script.js:545-554 | the header is complete exactly when no required field's value is blank |
| `Validation.SomeNonBlank` | script.js:562-564 | true exactly when some item's description is non-blank after trimming |
| `Validation.Validate` | script.js:544-572 | a missing-field refusal names a blank field; acceptance implies a complete header and a described item; the no-item refusal implies a complete header and no described item |
| `Validation.FilledIsComplete` | script.js:545-550 | the four fields of the checking order are exactly the fields of a complete header |
| `Validation.FieldIndex` | script.js:545-550 | every required field has its position in the checking order |
| `Validation.ValidateAcceptsExactly` | script.js:544-572 | the form is accepted exactly when the four fields are filled in and some description is non-blank |
| `Validation.MissingFieldIsFirstBlank` | script.js:552-558 | the field a refusal names is preceded, in the checking order, only by filled-in fields |
| `Validation.EmptyClientNameRejected` | script.js:544-558 | an empty client name is refused, with that field named, even when everything else is valid |
| `Validation.BlankInvoiceNumberReportedFirst` | script.js:552-558 | a blank invoice number is reported whatever the other fields hold |
| `Validation.WhitespaceDescriptionNotValid` | script.js:562-567 | a single item whose description is a space makes the form invalid, yet it is kept by the table filter |
| `Validation.AcceptedHasRows` | script.js:562-564 | an accepted form always has at least one table row |
| `Validation.AcceptedHasClientName` | script.js:554 | an accepted form has a non-empty client name |
| `Render.RowOf` | script.js:720-733 | a row carries the item's description, quantity and price, its discount amount and its line total as the item arithmetic defines them |
| `Render.RowTotalIsStoredTotal` | script.js:322-324 | a row's total equals the item's stored total whenever that total is up to date |
| `Render.MapRows` | script.js:720 | mapping gives one row per item, in order |
| `Render.MapRowsAppend` | script.js:720 | mapping distributes over concatenation |
| `Render.PreviewRows` | script.js:720-733 | there are no more rows than items |
| `Render.PreviewRowsMembers` | script.js:720 | a row appears exactly when some item with a non-empty description produces it |
| `Render.PreviewRowsSnoc` | script.js:320-334 | one more item adds its row exactly when its description is non-empty |
| `Render.PdfTableRows` | script.js:317-334 | the rows pushed by the PDF loop are exactly the preview's rows |
| `Render.SumRowTotalsOfMap` | script.js:322-324 | the row totals add up to the line totals of the listed items |
| `Render.AmountDueCoversUnlistedItems` | script.js:395-400 | the amount due is the sum of the row totals plus the line totals of the items that have no row |
| `Render.UnlistedItemExample` | script.js:668-673 | one priced item without a description gives no row but 50 due |
| `Render.ClientBlockEnd` | script.js:274-312 | the cursor's final value is at least its starting value 72 |
| `Render.TableStartY` | script.js:315 | `Math.max(yPos + 15, 115)`: the table's start is at least 115 and at least the block's end plus 15; it is 115 when the block ends at 100 or less and exactly the block's end plus 15 otherwise |
| `Render.ClientBlock` | script.js:274-315 | the cursor advanced field by field ends at the client block's end, and the table start is placed from it |
| `Render.AddressLines` | script.js:305-311 | the address loop adds 5 for each non-blank line |
| `Render.ClientBlockBounded` | script.js:274-312 | the cursor ends at most at 99 plus 5 per address line |
| `Render.AcceptedClientBlock` | script.js:274-277 | once the form is accepted the client name is drawn, so the cursor ends at 79 or more |
| `Render.BlankAddressCostsOneLine` | script.js:302-311 | a non-empty address whose lines are all blank moves the cursor by 5 only, for its "Address:" line |
| `Render.BlankAddressLines` | script.js:302-311 | the single example " \n " with no other client field: the cursor ends at 77 and the table starts at 115 |
| `Render.LineYs` | script.js:455-457 | line i is drawn at the base plus 5 times i |
| `Render.PlaceInstructions` | script.js:430-504 | no instructions, no block; a block moved to a new page, with or without the continued heading, draws its lines from 40; one that stays draws them from the table end plus 64 |
| `Render.PlacementCases` | script.js:437-481 | the new-page, continued and same-page outcomes hold exactly under their start and end conditions |
| `Render.SamePageFits` | script.js:472-502 | lines kept on the page lie below the totals box and end above the bottom margin |
| `Render.NewPageMayOverflow` | script.js:437-457 | lines moved to a new page are never checked against its height: enough of them reach the footer |
| `Render.ClientPart` | script.js:527 | the client part is the client name when that is non-empty and "Client" when it is empty |
| `Render.FileName` | script.js:527 | the name starts with "Invoice_", ends with ".pdf" and is 13 characters longer than its two parts |
| `Render.IndexOf` | script.js:527 | no counterpart in the source, which never reads a file name back: the first position of a character, or -1 exactly when it does not occur, used to read a name back |
| `Render.ParseFileName` | script.js:527 | no counterpart in the source: the inverse of the file-name pattern, written for the round trip; its two parts are 13 characters shorter than the name |
| `Render.FileNameRoundTrip` | script.js:527 | an invoice number without an underscore and the client part can be read back from the file name |
| `Render.FileNameAmbiguous` | script.js:527 | with underscores in the invoice number two different forms save under the same name |
| `Render.PreviewInvoice` | script.js:658-673 | the preview opens exactly when the form is accepted; it then shows the filtered rows, at least one, the `reduce` totals over every item, and the instructions section exactly when that field is non-empty |
| `Render.GeneratePdf` | script.js:164-528 | the export is refused exactly when the preview is, with the same verdict; otherwise its rows and totals equal the preview's, its cursor, table start, instruction placement and file name follow the layout rules, and the file name uses the client name itself |

## Left out

- The page plumbing is not modelled:
  - DOM reads and writes, `alert`, `confirm`, `focus` and the texts of the alerts;
  - the preview modal's opening and closing, and `showSuccessMessage` with its timers.

  The values of the inputs are parameters: a `Header` and one `ItemInput` per card.
  The confirmation of `clearForm` is a boolean parameter.
- jsPDF is not modelled: drawing, fonts, colours, rectangles, the logo, `autoTable` and `splitTextToSize`. Where the table ended, the page height and the number of instruction lines are parameters.
- `toFixed(2)`, the "PKR " label and binary floating point are not modelled. Amounts are exact reals. Rows hold numbers, not formatted text.
- `parseFloat`'s reading of the text is not modelled. Its result is an input: a number, or `None` for NaN.
- The following depend on the clock and locale and are not modelled:
  - `formatDate`;
  - `initializeForm`, which sets today's date, the due date 30 days on and an invoice number from `Date.now()`;
  - the clearing of the header inputs by `clearForm`. `Store.ServiceItems.Clear` models only its effect on the items, the counter and the labels.
- The draft autosave and its restore through `localStorage` are not modelled.
- In the preview, the address is shown untrimmed with `<br>` between its lines. This, like the rest of the preview's markup, is not modelled. Only the preview's rows, totals and whether it shows the instructions are.
- `Store.ServiceItems.Add` and `Store.ServiceItems.Remove` stop before the `calculateTotals()` call that ends `addServiceItem` and `removeServiceItem`. That call is `Store.ServiceItems.CalculateTotals`, run next with the cards' current values. `Store.ServiceItems.Clear` does run it, on the one fresh card.
- `Store.ServiceItems.Valid` does not include that every stored total agrees with its fields. That fact is stated where totals are written: `Items.Recomputed`, `Store.RecomputedAll` and `Items.DefaultItem`.
- The `try`/`catch`/`finally` around the PDF export are not modelled. That is the "Generating PDF..." button state, the error alert, and the restore of the button. The model's export cannot fail once the form is accepted.
