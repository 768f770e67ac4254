# Point-of-sale client: cart, checkout, catalog screens and copies

This project models the in-memory rules of a React Native point-of-sale
client and proves properties of them. The client sells the products of a
store (by piece or by weight, 'granel'), sends the cart to the cashier as
a pending sale, and drives a print and photocopy service.

The model covers these parts:

- **Cart ledger** (`CartLedger`, `CartProvider`). The cart is an ordered
  sequence of lines identified by the key (productId, presentationId). It
  supports add with merge, remove, update-quantity, clear, the total and
  the item count. The provider holds the sequence, the loaded flag and
  the stored copy. No save happens before the store has been read.
- **Pending sale** (`PendingSale`). Cart lines are turned into order
  details with id parsing. The payload has guards for a blank client
  name, an empty cart, an unparsable product id and a non-positive total.
  The checkout screen's state changes around the request are modelled.
- **Line candidates** (`Catalog`, `ProductsList`, `ProductSearch`,
  `BarcodeScanner`). These decide what reaches the ledger's add:
  - the base price, taken with JavaScript `||`;
  - case-insensitive 'granel' detection and sale-type normalisation;
  - the by-weight quantity (entered amount ÷ base price) and its
    validation;
  - the search trigger;
  - the scanner's accept-or-redirect cascade with its two busy flags;
  - the expanded-row set toggle.
- **Copies screen** (`Copies`, `PrinterRegistry`). This covers the copy
  count kept within 1..100, the print and photocopy guards, and the reset
  when the mode changes. It also covers the printer list and its default
  name under the add, rename, delete and set-default handlers. The
  discipline they keep is `Consistent`: distinct ids, non-empty names,
  and exactly one default whose name is the default name once a printer
  exists.
- **Upload names** (`UploadNames`). A file is sent under the last
  `/`-segment of its URI, or under a fallback name. The model covers the
  content type inferred from the suffix, the print form, the scan blob
  type, the image parts of the PDF and combine requests, and the
  two-image arity check.

`JsValues` writes out the JavaScript behaviour the rules depend on:
- `||` on numbers;
- `trim` with ECMAScript white space;
- `length` as a count of UTF-16 code units;
- ASCII `toLowerCase`;
- `parseInt(s, 10)` and `parseFloat` (NaN is `None`);
- number-to-decimal text.

Modelling choices:
- Money and quantities are exact `real`. The one IEEE effect modelled is
  the infinite quotient of a division by zero (`Catalog.Divide`).
- Persistent storage is an `Option<seq<CartLine>>` value. `None` means
  nothing is stored.
- Backend replies are parameters of the methods that use them:
  `PendingSale.Reply`, `BarcodeScanner.Lookup` and the search response.
- The printer id that the code takes from the clock is a parameter.
- Timers are explicit steps: `DebounceElapsed` and `ResetElapsed`.

## Model

| member | source | states |
|---|---|---|
| JsValues.OrNumber | contexts/CartContext.tsx:80-81 | `x \|\| y` on numbers: a non-zero left operand is kept; a zero one gives the right operand |
| JsValues.OrOptional | app/products.tsx:147 | `p?.v \|\| y`: an absent or zero value falls back to `y`, any other value is kept |
| JsValues.TrimStart | app/cart.tsx:242-245 | the result is a suffix of the input that does not start with white space, and everything dropped is white space |
| JsValues.TrimEnd | app/cart.tsx:242-245 | the result is a prefix of the input that does not end with white space, and everything dropped is white space |
| JsValues.Trim | app/cart.tsx:242-245 | a non-empty trimmed string neither starts nor ends with white space |
| JsValues.TrimEmptyIffAllWhitespace | app/cart.tsx:242-245 | the trimmed string is empty exactly when the input is all white space (the blank-name guard) |
| JsValues.TrimIdempotent | app/search.tsx:81-82 | trimming twice is trimming once, so the trimmed query passes `performSearch`'s own trimmed guard |
| JsValues.Utf16Length | app/search.tsx:81-81 | at least one code unit per character and at most two, so the count is 0 exactly for the empty string |
| JsValues.TrimOfNonWhitespaceChar | app/search.tsx:81-81 | trimming leaves a single non-white-space character as it is |
| JsValues.AstralCharacterLength | app/search.tsx:81-81 | a character above U+FFFF is two code units long and is not white space |
| JsValues.BmpCharacterLength | app/search.tsx:81-81 | any other character is one code unit long |
| JsValues.ToLowerAscii | app/products.tsx:149 | same length; every character is lowered one by one |
| JsValues.EqualsIgnoringCaseLetters | app/products.tsx:149 | against a lower-case word, lowering and comparing accepts exactly the strings equal to it up to the case of each letter |
| JsValues.DigitPrefix | app/cart.tsx:272 | the longest prefix made of decimal digits |
| JsValues.ParseIntIsNaN | app/cart.tsx:272-283 | `parseInt` is NaN exactly when no digit follows the leading white space and the optional sign |
| JsValues.ExponentScale | app/products.tsx:196 | an exponent part always scales by a positive factor |
| JsValues.ParseFloatIsNaN | app/products.tsx:196-200 | `parseFloat` is NaN exactly when no digit, and no point followed by a digit, follows the white space and the sign |
| JsValues.NatToString | app/copies.tsx:619 | the decimal text of a number is non-empty and all digits |
| JsValues.DigitsValueOfNatToString | app/copies.tsx:619 | the decimal text reads back as the number |
| JsValues.DigitPrefixOfDigits | app/cart.tsx:272 | a string made only of digits is its own digit prefix |
| JsValues.ParseIntNatToString | app/copies.tsx:166-167 | `parseInt` of a number's decimal text is that number |
| CartLedger.EffectivePrice | contexts/CartContext.tsx:80-81 | `basePrice \|\| unitPrice`: a present non-zero base price wins; an absent or zero one gives the unit price |
| CartLedger.FindIndex | contexts/CartContext.tsx:75-77 | the index of the first line with the key, or -1 exactly when no line has it |
| CartLedger.AddLine | contexts/CartContext.tsx:70-105 | the length grows by one exactly when the key is absent |
| CartLedger.AddAbsentAppends | contexts/CartContext.tsx:93-102 | for an absent key exactly one line is appended, holding the candidate's fields with unit price `basePrice \|\| unitPrice` and total quantity × that price; earlier lines are unchanged |
| CartLedger.AddPresentMerges | contexts/CartContext.tsx:83-92 | for a present key, length and positions are kept; the matching line gets the summed quantity and total (old + new) × its own effective price, so the incoming prices are ignored; every other line is unchanged |
| CartLedger.AddPreservesNoDuplicates | contexts/CartContext.tsx:75-102 | add keeps "no two lines share a key" |
| CartLedger.AddPreservesNormalized | contexts/CartContext.tsx:80-102 | add keeps every line's total equal to quantity × effective price |
| CartLedger.RemoveLines | contexts/CartContext.tsx:107-113 | the result holds exactly the lines without the key, and no others |
| CartLedger.RemoveDistributes | contexts/CartContext.tsx:108-111 | removal distributes over concatenation, so the relative order of the kept lines is preserved |
| CartLedger.RemoveAbsent | contexts/CartContext.tsx:108-111 | removing an absent key changes nothing |
| CartLedger.RemoveDeletesOne | contexts/CartContext.tsx:107-113 | in a cart without duplicate keys, removal cuts out exactly the matching line |
| CartLedger.RemoveIdempotent | contexts/CartContext.tsx:107-113 | removing twice is removing once |
| CartLedger.RemovePreservesNoDuplicates | contexts/CartContext.tsx:107-113 | remove keeps "no two lines share a key" |
| CartLedger.RemovePreservesNormalized | contexts/CartContext.tsx:107-113 | remove keeps every line's total consistent with its price |
| CartLedger.UpdateLines | contexts/CartContext.tsx:121-135 | same length; each line with the key is re-quantified and every other line is kept |
| CartLedger.UpdateNonPositiveIsRemove | contexts/CartContext.tsx:116-119 | a quantity ≤ 0 has exactly the effect of removing the key |
| CartLedger.UpdatePositiveChangesMatchOnly | contexts/CartContext.tsx:121-135 | a positive quantity sets quantity, unit price = effective price and total = quantity × effective price on the matching lines only; key, names, sale type and base price are kept; length and order are kept |
| CartLedger.UpdateAbsentIsNoOp | contexts/CartContext.tsx:121-135 | updating an absent key changes nothing |
| CartLedger.UpdatePreservesNoDuplicates | contexts/CartContext.tsx:115-136 | update keeps "no two lines share a key" |
| CartLedger.UpdatePreservesNormalized | contexts/CartContext.tsx:121-131 | update keeps every line's total consistent with its price |
| CartLedger.TotalAppend | contexts/CartContext.tsx:147-149 | the total of a concatenation is the sum of the totals |
| CartLedger.ItemCountAppend | contexts/CartContext.tsx:151-153 | the item count of a concatenation is the sum of the counts |
| CartLedger.SumsAfterReplace | contexts/CartContext.tsx:147-153 | replacing one line changes the total and the count by exactly that line's difference |
| CartLedger.TotalIsPricedSum | contexts/CartContext.tsx:147-149 | for consistent lines the total is the sum of quantity × effective price, and the empty cart totals 0 |
| CartLedger.ItemCountAfterAdd | contexts/CartContext.tsx:70-105 | add increases the item count by the candidate's quantity, whether it merges or appends |
| CartLedger.TotalAfterAddNew | contexts/CartContext.tsx:93-102 | appending increases the total by quantity × the candidate's effective price |
| CartLedger.TotalAfterAddMerge | contexts/CartContext.tsx:83-92 | merging increases the total by the added quantity × the existing line's effective price |
| CartProvider.Cart.constructor | contexts/CartContext.tsx:32-33 | the provider starts empty and not loaded, and the store holds what was persisted |
| CartProvider.Cart.SaveIfLoaded | contexts/CartContext.tsx:41-46 | the store receives the items only once the cart is loaded |
| CartProvider.Cart.Load | contexts/CartContext.tsx:48-60 | the load always ends loaded; it replaces the items by the stored sequence when one is read, and keeps them when nothing is stored or the read fails; the store is not written |
| CartProvider.Cart.Add | contexts/CartContext.tsx:70-105 | items become `AddLine` of the old items; the store follows only when loaded; no-duplicates and line consistency are preserved; the item count grows by the quantity |
| CartProvider.Cart.Remove | contexts/CartContext.tsx:107-113 | items become `RemoveLines`; the store follows only when loaded; both invariants are preserved |
| CartProvider.Cart.UpdateQuantity | contexts/CartContext.tsx:115-136 | items become the update (a removal for quantity ≤ 0); the store follows only when loaded; both invariants are preserved |
| CartProvider.Cart.Clear | contexts/CartContext.tsx:138-145 | the cart is empty; the store is cleared and then written as the empty sequence only when loaded |
| CartProvider.Cart.GetTotal | contexts/CartContext.tsx:147-149 | the sum of the line totals, equal to the priced sum for consistent lines |
| CartProvider.Cart.GetItemCount | contexts/CartContext.tsx:151-153 | the sum of the quantities |
| CartProvider.ReloadAfterClear | contexts/CartContext.tsx:48-60 | after a clear, a fresh provider loads an empty cart whatever the read does |
| CartProvider.AddBeforeLoadIsOverwritten | contexts/CartContext.tsx:41-60 | a line added before the load resolves is lost once a stored sequence is read, and nothing was saved before |
| CartProvider.ExampleSession | contexts/CartContext.tsx:70-149 | adding 2 then 3 units at 10 merges into one line of 5 worth 50; clearing empties the cart and stores the empty sequence |
| PendingSale.OrNull | app/cart.tsx:305 | `s \|\| null`: empty text becomes null, and any other text is kept |
| PendingSale.OptionalOrNull | app/cart.tsx:307-308 | an absent or empty optional string becomes null, and any other is kept |
| PendingSale.ConvertsExactly | app/cart.tsx:271-283 | a line converts exactly when `parseInt` of its product id is a positive number; the presentation id never decides it |
| PendingSale.DetailFields | app/cart.tsx:286-310 | the detail has the parsed positive product id; the presentation id only when it parses to a positive number; price ← unit price; subtotal ← total; base price ← `basePrice \|\| unitPrice`; the name or null |
| PendingSale.BuildDetails | app/cart.tsx:267-314 | succeeds exactly when every line converts, with one detail per line in cart order; otherwise fails with an invalid product id |
| PendingSale.BuildDetailsFirstFailure | app/cart.tsx:267-283 | a failure names the first line whose product id does not convert; every earlier line converts |
| PendingSale.BuildPayload | app/cart.tsx:242-331 | refuses a blank name, then an empty cart (exactly when the name is not blank and the cart is empty), then a bad id (with `BuildDetails`' error, naming the first such line), then a total ≤ 0, and succeeds exactly when none applies; the payload carries the trimmed name, the cart total, the fixed branch and cash register, and the details |
| PendingSale.SubmissionSucceeds | app/cart.tsx:242-376 | a confirmation succeeds exactly when the payload is valid and the backend answers with a non-empty code; a blank name or an empty cart is refused first |
| PendingSale.SubTotalsMatchTotals | app/cart.tsx:304-323 | details whose subtotals are the line totals add up to the cart total |
| PendingSale.PayloadTotalIsSumOfDetails | app/cart.tsx:318-331 | the payload total is the sum of the detail subtotals and, for consistent lines, the priced sum |
| PendingSale.DetailOfNumericIds | app/cart.tsx:271-298 | the decimal text of a positive id converts to that id; presentation id 0 becomes null |
| PendingSale.CheckoutScreen.constructor | app/cart.tsx:31-33 | no client name, the modal closed, not submitting |
| PendingSale.CheckoutScreen.EnterClientName | app/cart.tsx:242 | the name field holds the typed text |
| PendingSale.CheckoutScreen.SendToCashier | app/cart.tsx:232-239 | the client modal opens exactly when the cart is not empty |
| PendingSale.CheckoutScreen.ConfirmSendToCashier | app/cart.tsx:241-407 | the outcome is `Submission`; a request is sent exactly when the payload is valid; only a reply with a code clears the cart and the name; a failure leaves the cart unchanged; the modal and the submitting flag follow each exit path |
| Catalog.BasePrice | app/products.tsx:147-188 | the presentation's unit price when present and non-zero, otherwise the product's price |
| Catalog.IsGranelIgnoresCase | app/products.tsx:149 | a sale type is 'granel' exactly when it spells `granel` in any mix of upper and lower case |
| Catalog.NormalizedSaleType | app/products.tsx:160-162 | 'Granel' exactly for a by-weight sale type, 'Pieza' otherwise (absent included) |
| Catalog.DefaultPresentation | app/products.tsx:240 | the first presentation marked default, or none exactly when no presentation is marked |
| Catalog.DefaultPrice | app/products.tsx:240 | the listed price is the base price of the default presentation |
| Catalog.Toggle | app/products.tsx:130-140 | flips membership of exactly the given id and leaves every other id as it was |
| Catalog.ToggleInvolution | app/products.tsx:130-140 | toggling twice restores the set |
| Catalog.GranelQuantity | app/products.tsx:203-208 | corrected quantity check: refused exactly when the base price is ≤ 0; an accepted quantity is positive and times the base price gives the entered amount |
| Catalog.EnteredAmount | app/products.tsx:191-200 | an amount is read exactly when the text is not blank and `parseFloat` gives a positive number |
| Catalog.GranelCandidate | app/products.tsx:203-220 | corrected: refused exactly when the base price is ≤ 0; otherwise the line is sold as 'Granel' at the base price, with a quantity that makes up exactly the entered amount |
| Catalog.GranelRequest | app/products.tsx:185-220 | corrected: the failure cases in order: no selection, a blank amount, a non-numeric or non-positive amount; otherwise the candidate for the parsed amount |
| Catalog.AddChargedAtUnitPrice | contexts/CartContext.tsx:93-102 | a new line whose base price is its unit price adds exactly quantity × unit price to the total |
| Catalog.GranelAddsEnteredAmount | app/products.tsx:203-220 | an accepted by-weight add of a new line raises the cart total by exactly the entered amount |
| Catalog.GranelAcceptsPreviewedAmount | app/products.tsx:454-458 | an accepted add is for the amount the modal previews, which is positive |
| ProductsList.PieceCandidate | app/products.tsx:164-173 | a piece line: quantity `presentation.quantity \|\| 1`, unit and base price the base price, normalised sale type, the ids and names of product and presentation |
| ProductsList.PieceLineIsPieza | app/products.tsx:160-173 | a non-granel add is sold as 'Pieza' and, on a new line, raises the total by quantity × base price |
| ProductsList.ProductsScreen.constructor | app/products.tsx:71-77 | nothing expanded, the modal closed, no selection, no amount |
| ProductsList.ProductsScreen.ToggleProductExpansion | app/products.tsx:130-140 | the expanded set becomes its toggle at the id |
| ProductsList.ProductsScreen.AddToCart | app/products.tsx:142-183 | a by-weight product opens the modal with the selection and an empty amount, and leaves the cart unchanged; any other product adds the piece line |
| ProductsList.ProductsScreen.EnterGranelPrice | app/products.tsx:151-156 | the amount field holds the typed text |
| ProductsList.ProductsScreen.CloseGranelModal | app/products.tsx:233-236 | closes the modal and clears the selection and the amount |
| ProductsList.ProductsScreen.GranelAddToCart | app/products.tsx:185-237 | corrected: the outcome is `GranelRequest`; only an accepted one adds its line and closes the modal; a refused one changes nothing |
| ProductSearch.SearchTrigger | app/search.tsx:79-90 | a search for the trimmed query exactly when it is ≥ 2 UTF-16 code units long; a clear exactly when it is empty; nothing for one code unit |
| ProductSearch.AstralCharacterIsSearched | app/search.tsx:81-82 | a query of one character above U+FFFF (an emoji) is searched, since it is two code units long |
| ProductSearch.SingleBmpCharacterWaits | app/search.tsx:81-84 | a query of one other non-white-space character neither searches nor clears |
| ProductSearch.ClearsOnlyBlankQueries | app/search.tsx:83-86 | the results are cleared exactly for an all-white-space query |
| ProductSearch.ErrorText | app/search.tsx:105-109 | the backend's error, else the exception's message, else the fixed text; never empty |
| ProductSearch.PieceCandidate | app/search.tsx:136-162 | a search add is always one unit at the base price with the normalised sale type |
| ProductSearch.SearchPieceAddsOneUnit | app/search.tsx:149-162 | a piece add from search raises the item count by one, and on a new line the total by the base price |
| ProductSearch.SearchScreen.constructor | app/search.tsx:64-76 | empty query, no results, no error, not loading, nothing expanded, the modal closed |
| ProductSearch.SearchScreen.EnterQuery | app/search.tsx:79-90 | the query holds the typed text |
| ProductSearch.SearchScreen.PerformSearch | app/search.tsx:92-114 | runs exactly for a searchable query (≥ 2 UTF-16 code units once trimmed); results replace the list and clear the error, or a failure empties the list and sets the error text; loading ends false; otherwise nothing changes |
| ProductSearch.SearchScreen.ClearResultList | app/search.tsx:84-85 | no results and no error |
| ProductSearch.SearchScreen.ApplySearchAction | app/search.tsx:80-87 | each action's effect on results, error and loading; doing nothing leaves all three |
| ProductSearch.SearchScreen.DebounceElapsed | app/search.tsx:79-90 | the action taken is `SearchTrigger` of the current query, with its effect |
| ProductSearch.SearchScreen.ToggleProductExpansion | app/search.tsx:124-134 | the expanded set becomes its toggle at the id |
| ProductSearch.SearchScreen.AddToCart | app/search.tsx:136-170 | by weight: the modal opens and the cart is unchanged; otherwise the one-unit line is added |
| ProductSearch.SearchScreen.EnterGranelPrice | app/search.tsx:144-147 | the amount field holds the typed text |
| ProductSearch.SearchScreen.CloseGranelModal | app/search.tsx:216-219 | closes the modal and clears the selection and the amount |
| ProductSearch.SearchScreen.GranelAddToCart | app/search.tsx:172-220 | corrected: the same validation as the product list; only an accepted amount adds its line and closes the modal |
| BarcodeScanner.LookupErrorText | app/scanner.tsx:161-168 | a 404 is an unknown code; any other failure shows the backend's error, or the fixed text |
| BarcodeScanner.DirectCandidate | app/scanner.tsx:72-144 | one unit of the default presentation, at its price or the product's, with the normalised sale type |
| BarcodeScanner.ScanDecision | app/scanner.tsx:63-144 | no product gives not-found with the code; a failed lookup gives its alert; more than one presentation redirects; granel redirects; only the rest are added directly |
| BarcodeScanner.ScannedLineIsOnePieceAtListPrice | app/scanner.tsx:72-144 | a scanned line is one 'Pieza' at the price the product list shows |
| BarcodeScanner.SingleNonDefaultPresentationIsDropped | app/scanner.tsx:72-141 | a product whose only presentation is not default is added without a presentation, at the product's price |
| BarcodeScanner.AddedToast | app/scanner.tsx:150-153 | the toast names the product, and the default presentation when there is one |
| BarcodeScanner.ScannerScreen.constructor | app/scanner.tsx:30-33 | not scanned, not loading, no toast |
| BarcodeScanner.ScannerScreen.SetBusy | app/scanner.tsx:51-52 | both flags take the value |
| BarcodeScanner.ScannerScreen.ShowToast | app/scanner.tsx:153-154 | the toast shows the message |
| BarcodeScanner.ScannerScreen.BarCodeScanned | app/scanner.tsx:48-172 | a scan while busy is ignored and changes nothing; otherwise the result is `ScanDecision`; a direct add adds the line, keeps both flags set and shows the toast; every other outcome clears the flags and leaves the cart unchanged |
| BarcodeScanner.ScannerScreen.ResetElapsed | app/scanner.tsx:157-160 | both flags are cleared |
| BarcodeScanner.ScanTwiceBeforeReset | app/scanner.tsx:48-160 | a second read before the reset is ignored; after the reset the same code is added again and merges with the existing line |
| PrinterRegistry.EmptyDefaultNameMeansNoPrinter | app/copies.tsx:201-250 | in a consistent registry an empty default name means exactly that no printer exists |
| PrinterRegistry.AddPrinter | app/copies.tsx:422-444 | refused exactly for a blank name; otherwise one printer with the trimmed name is appended; it is the default, and its name the default name, exactly when the list was empty |
| PrinterRegistry.AddKeepsConsistent | app/copies.tsx:428-439 | adding a printer with a new id keeps the registry consistent |
| PrinterRegistry.Renamed | app/copies.tsx:452-454 | same length; only printers with the id take the new name; ids and default marks are kept |
| PrinterRegistry.RenamePrinterAsWritten | app/copies.tsx:446-459 | as written: the default name follows the rename when the copy taken at the start of the edit was the default |
| PrinterRegistry.RenamePrinter | app/copies.tsx:446-459 | corrected: refused for a blank name; renames the printer with the id; the default name follows exactly when that printer is currently the default |
| PrinterRegistry.RenameKeepsConsistent | app/copies.tsx:452-459 | the corrected rename keeps the registry consistent |
| PrinterRegistry.RenameAgreesOnCurrentCopy | app/copies.tsx:457-459 | when the edited copy is the current list entry, the as-written and corrected renames agree |
| PrinterRegistry.WithDefault | app/copies.tsx:502-505 | same length; exactly the printers with the chosen id are marked default |
| PrinterRegistry.SetDefaultPrinter | app/copies.tsx:501-507 | the list with only the chosen printer marked default, and the chosen name as the default name |
| PrinterRegistry.SetDefaultKeepsConsistent | app/copies.tsx:501-507 | choosing a listed printer leaves it the sole default, and the registry consistent |
| PrinterRegistry.WithoutId | app/copies.tsx:477 | exactly the printers with another id are kept |
| PrinterRegistry.WithoutListedId | app/copies.tsx:477 | with distinct ids, filtering cuts out exactly the listed printer, in order |
| PrinterRegistry.WithoutAbsentId | app/copies.tsx:477 | filtering an absent id changes nothing |
| PrinterRegistry.DefaultFirst | app/copies.tsx:482-485 | same printers, with only the first marked default |
| PrinterRegistry.DeletePrinter | app/copies.tsx:467-499 | a deleted default with printers left makes the first remaining one the default and the default name; a deleted default with none left clears the name; a non-default deletion keeps the name |
| PrinterRegistry.RemoveAt | app/copies.tsx:477 | the list with one position cut out |
| PrinterRegistry.RemoveAtKeepsShape | app/copies.tsx:477 | cutting out a position keeps ids distinct and names present, and moves a sole default to its new position |
| PrinterRegistry.DefaultFirstKeepsShape | app/copies.tsx:480-487 | re-marking keeps ids and names and makes the first printer the sole default |
| PrinterRegistry.DeleteKeepsConsistent | app/copies.tsx:467-499 | deleting a listed printer removes exactly one, keeps the others in order, and keeps the registry consistent |
| PrinterRegistry.StaleEditMisnamesDefault | app/copies.tsx:446-510 | starting an edit, then choosing another default, then saving the edit: the code as written names the renamed, non-default printer as the default; the corrected rename keeps the real default |
| Copies.TypedCopies | app/copies.tsx:166-171 | an accepted typed count lies in 1..100 |
| Copies.TypedCopiesCases | app/copies.tsx:166-171 | non-numeric text and "0" give one copy; a number in range is taken; negatives and numbers above 100 are refused |
| Copies.TypedCopiesOfDecimal | app/copies.tsx:166-171 | the decimal text of a count in range is taken back as that count |
| Copies.EmptyFieldIsOneCopy | app/copies.tsx:167 | the empty field gives one copy |
| Copies.PrintDecision | app/copies.tsx:200-221 | refuses without a default printer, then without a file; otherwise sends the file, count and colour mode to the default printer |
| Copies.PhotocopyDecision | app/copies.tsx:239-324 | refuses without a default printer; a double-sided copy not yet begun scans the front; otherwise sends a one-sided photocopy to the default printer |
| Copies.GuardsRefuseOnlyWithoutPrinters | app/copies.tsx:200-250 | in a consistent registry both guards refuse exactly when no printer exists |
| Copies.CopiesScreen.SetPrinters | app/copies.tsx:148-164 | the list and the default name are replaced together, and the screen is valid when the new registry is consistent |
| Copies.CopiesScreen.constructor | app/copies.tsx:56-81 | print mode, one copy, black and white, nothing selected, no printers, a valid screen |
| Copies.CopiesScreen.CopiesChange | app/copies.tsx:166-171 | the typed count is taken when accepted and otherwise ignored; the count stays in 1..100 |
| Copies.CopiesScreen.DecrementCopies | app/copies.tsx:608-612 | one fewer when above 1; the count never leaves 1..100 |
| Copies.CopiesScreen.IncrementCopies | app/copies.tsx:625-629 | one more when below 100; the count never leaves 1..100 |
| Copies.CopiesScreen.SetMode | app/copies.tsx:113-123 | a mode change away from scan empties the pages, and away from photocopy resets the double-sided state; choosing the current mode changes nothing |
| Copies.CopiesScreen.SetColorMode | app/copies.tsx:58 | the colour mode takes the choice |
| Copies.CopiesScreen.ToggleDoubleSided | app/copies.tsx:803-805 | the switch flips |
| Copies.CopiesScreen.SelectFile | app/copies.tsx:181-183 | the picked file, named 'archivo' when it has no name |
| Copies.CopiesScreen.Print | app/copies.tsx:200-237 | the request is `PrintDecision` of the screen, and a print always names a printer |
| Copies.CopiesScreen.Photocopy | app/copies.tsx:239-255 | the request is `PhotocopyDecision`; only a front-side scan marks the first side as in progress |
| Copies.CopiesScreen.EnterPrinterName | app/copies.tsx:989 | the name field holds the typed text |
| Copies.CopiesScreen.StartEditing | app/copies.tsx:1027-1030 | editing begins on a copy of the printer, with its name in the field |
| Copies.CopiesScreen.CloseConfiguration | app/copies.tsx:971-974 | closing abandons the edit and clears the field |
| Copies.CopiesScreen.AddPrinter | app/copies.tsx:422-444 | adds exactly when the trimmed name is not blank; the registry becomes `AddPrinter` and the field is cleared; a refusal changes nothing; validity is kept for a new id |
| Copies.CopiesScreen.UpdatePrinter | app/copies.tsx:446-465 | updates exactly when an edit is open and the name is not blank; the registry becomes the corrected rename and the edit closes; validity is kept |
| Copies.CopiesScreen.DeletePrinter | app/copies.tsx:467-499 | the registry becomes `DeletePrinter`; a listed printer goes, exactly one, and validity is kept |
| Copies.CopiesScreen.SetDefaultPrinter | app/copies.tsx:501-510 | the registry becomes `SetDefaultPrinter`; the default name is the chosen printer's; validity is kept for a listed printer |
| Copies.FirstPrinterIsDefault | app/copies.tsx:428-439 | the first printer added is the default, under its trimmed name |
| Copies.ConfigureFirstPrinter | app/copies.tsx:422-444 | a fresh screen with one printer configured is valid, with that printer as the default |
| Copies.FirstPrinterPrints | app/copies.tsx:200-444 | once the first printer is configured, printing a picked file sends one black-and-white copy to it |
| UploadNames.LastSegment | app/api/copies.js:26 | `split('/').pop()`: a suffix without '/' that is the whole URI or follows a '/' |
| UploadNames.LastSegmentUnique | app/api/copies.js:26 | those three properties determine the segment |
| UploadNames.LastSegmentOfPath | app/api/copies.js:26 | a file under a directory is sent under its own name |
| UploadNames.FileNameOr | app/api/copies.js:26-191 | the last segment when it is not empty, otherwise the fallback; with a proper fallback the name is never empty and never holds '/' |
| UploadNames.MimeType | app/api/copies.js:27-29 | '.pdf' before '.jpg' or '.jpeg' before '.png'; anything else is a PDF; each type exactly under its condition |
| UploadNames.UpperCaseSuffixIsSentAsPdf | app/api/copies.js:27-29 | the test is case-sensitive, so an upper-case '.JPG' is sent as a PDF |
| UploadNames.IntToString | app/api/copies.js:38 | the decimal text of a count, with a '-' for negatives |
| UploadNames.PrintCopiesForm | app/api/copies.js:25-40 | the form holds the URI under its file name with the inferred type, the count as text, the colour mode and the printer |
| UploadNames.ParseIntOfIntToString | app/api/copies.js:38 | the count text reads back as the count |
| UploadNames.PrintFormIsDecodable | app/api/copies.js:25-40 | the form always names a file, never a path; a URI without a name is sent as 'file.pdf' typed as a PDF; the count text reads back |
| UploadNames.ScanBlobType | app/api/copies.js:106-108 | a PDF type exactly for the 'pdf' format, otherwise `image/<format>` |
| UploadNames.IndexedName | app/api/copies.js:137-191 | the fallback name is never empty and ends in '.jpg' |
| UploadNames.IndexedNamesDistinct | app/api/copies.js:137-191 | different positions get different fallback names |
| UploadNames.ImagePart | app/api/copies.js:136-142 | each image is sent as JPEG under its name or the indexed fallback |
| UploadNames.NamelessImagesGetDistinctNames | app/api/copies.js:135-143 | two nameless images at different positions never share a name |
| UploadNames.ImageParts | app/api/copies.js:135-197 | one part per URI, in order |
| UploadNames.CreatePdfParts | app/api/copies.js:131-143 | the pages, named 'page-i.jpg' when nameless |
| UploadNames.CombineImagesForm | app/api/copies.js:181-198 | fails, with its message, exactly when the number of URIs is not two; otherwise two sides named 'side-i.jpg' when nameless, and the layout |

## Left out

- Persistent storage (AsyncStorage) and JSON: the store is modelled as a
  value. Failed writes are not modelled; a failed read is the `readFails`
  parameter of `CartProvider.Cart.Load`. For printers, a failed save
  (app/copies.tsx:148-164) leaves the state unchanged in the source but
  is not modelled, and neither is reading the stored printers at mount
  (app/copies.tsx:125-146).
- HTTP: the pending-sale request, the product lookup, the search, and the
  print, scan, PDF and combine requests are foreign network I/O. Their
  replies are parameters (`Reply`, `Lookup`, the search response). The
  printer listing and the photocopy request are not part of this model.
- The checkout error message built from the exception
  (app/cart.tsx:379-387) is left out. Only the fact of failure is kept.
- Sound, haptics, alerts, navigation and rendering are left out, except
  the scanner's toast and the modal flags that the screens keep as state.
- The success toasts of the checkout, product-list and search screens
  (app/cart.tsx:350-351, app/products.tsx:180-181 and 229-230,
  app/search.tsx:167-168 and 213-214) are left out. They only display a
  message and do not affect the cart or any decision.
- The in-stock badge of the product list and the search results
  (app/products.tsx:241-242, app/search.tsx:224-225) is left out. It only
  decides rendering; no add path consults the stock, so `Catalog.Product`
  has no stock field.
- Copies.CopiesScreen.UpdatePrinter: follows the corrected
  `PrinterRegistry.RenamePrinter` (see Findings). It differs from the
  source (app/copies.tsx:457-459) when the printer's default mark changed
  after the edit began: the model keeps the real default name, where the
  source writes the new name as the default name.
- Catalog.GranelCandidate, Catalog.GranelRequest,
  ProductsList.ProductsScreen.GranelAddToCart and
  ProductSearch.SearchScreen.GranelAddToCart: use the corrected quantity
  check (`Catalog.GranelQuantity`, see Findings). A base price of 0 is
  refused where the source accepts an infinite quantity; the as-written
  check is `Catalog.GranelQuantityAsWritten`.
- IEEE doubles: prices and quantities are exact reals, so equalities
  about by-weight amounts hold only in the exact model. The one IEEE case
  kept is the infinite quotient of a division by zero. `toFixed` and
  currency formatting are not modelled.
- JsValues.ParseFloat, JsValues.ParseFloatIsNaN: do not read the literal
  `Infinity`. The model treats that text as NaN and refuses it as an amount. The source reads
  it as an infinite amount and can then accept an infinite quantity.
- JsValues.ToLowerAscii: lowers only ASCII letters. No other character
  lowers into one of the letters of 'granel', so the by-weight test is
  unaffected.
- CartProvider.Cart.GetItemCount: returns the numeric sum. The source
  returns the `toFixed(0)` text of it.
- Timers: the search debounce, the scanner's two-second reset and the
  delayed clear after a sale are modelled as explicit steps that happen
  at once. Interleavings of a pending load with other handlers are not
  modelled beyond `CartProvider.AddBeforeLoadIsOverwritten`.
- Copies.CopiesScreen.Photocopy: models only the decision and the start
  of a double-sided copy. The scans, the combine, the print after the
  back side, and the alert callbacks (app/copies.tsx:256-317) are
  scanner round-trips driven by alerts.
- Multi-page PDF scanning and the scan handler (app/copies.tsx:342-419)
  are left out. They are scanner round-trips; only the request parts
  (`UploadNames.CreatePdfParts`) are modelled.
- The deletion confirmation alert is left out. `DeletePrinter` is the
  confirmed branch.
- The scan file name built from the clock (app/api/copies.js:114) and
  the web/native platform split are left out. So is the file-existence
  check before printing (app/api/copies.js:18-23), which is file-system
  I/O.
- Ids are strings already: `toString()` on them is the identity in the
  model.
- The busy flags `loading`, `isPrinting` and `isPhotocopying` around
  requests are left out, except the search's `loading` and the scanner's
  two flags.
- URL validation of the backend address is left out. It depends on a
  foreign parser.
- `CartProvider.Cart.Load` follows the code, not the documented intent
  that changes made before the load survive it: the load overwrites them
  when a stored sequence is read (`CartProvider.AddBeforeLoadIsOverwritten`).

## Findings

| source | as written | input that shows it | evidently intended | confidence | as-written member | corrected member |
|---|---|---|---|---|---|---|
| app/products.tsx:203-208 (also app/search.tsx:190-195) | the quantity check `quantity <= 0 \|\| isNaN(quantity)` lets `entered / basePrice` through when the base price is 0, giving quantity Infinity and a line total of NaN | a product with price 0 and no presentation price, amount "10" | refuse a base price ≤ 0, so that an accepted quantity is finite and makes up the entered amount | not executed | Catalog.GranelZeroBasePriceAccepted | Catalog.GranelQuantity |
| app/copies.tsx:457-459 | renaming decides whether the default name follows from the `editingPrinter` copy taken when the edit began | printers A (default) and B; start editing A; make B the default; save A as "X": the default name becomes "X" while B is the default | decide from the printer's current entry in the list | not executed | PrinterRegistry.StaleEditMisnamesDefault | PrinterRegistry.RenamePrinter |
