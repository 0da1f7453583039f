# AdventureWorks / BikeStore storefront — a Dafny model

This project models the deterministic core of a React storefront prototype for a bicycle shop in El Salvador. The model covers two trees of the prototype:

- The current tree (`src/`). It has three roles: administrator, customer and cashier.
- An older copy (`project-prototype-OG/src/`). It has two roles: administrator and customer.

What is modelled:

- **Electronic tax document.** `src/utils/dteGenerator.ts` builds the DTE ("Documento Tributario Electrónico", tipoDte "01") from an invoice. This includes:
  - the amount written in Spanish words;
  - the version-4 UUID;
  - the control number.
- **Application state.** Each `App.tsx` is a class whose fields are the component's state, with one method per handler:
  - the cart, the catalogue, the invoices and the DTE records;
  - the current screen and the screen an invoice was opened from;
  - the signed-in user and the sign-in dialog.

  The list updates are pure functions in module `Store`, which both classes share.
- **Component decision logic:**
  - which invoices a visitor sees, the search and status filters, and the figures above each list;
  - the row actions offered;
  - the DTE download files;
  - the demo sign-in chain and the role a registration gets;
  - the cashier till's sale guard and payload;
  - the sidebar menus of each role.

Modelling conventions:

- Money is `real`, with the 13 % VAT computed exactly.
- Identifiers and texts are `string`.
- Clock readings and random draws are parameters:
  - `ClockReading` carries `Date.now()` and the ISO text of `new Date()`;
  - `Environment` carries the UUID draws, the base-36 random text and the time text.
- Browser storage is replaced by the values it would give back at start-up (`SavedState`).

Module layout, one file each:

- Shared helpers: `Wrappers`, `Text`, `Seqs`.
- Data types: `Types` and `OgTypes`, from the two `types.ts` files.
- Amount in words and the tax document: `DteWords`, `DteWordsReading`, `DteCodes`, `DteGenerator`.
- The `App.tsx` words copy: `AppWords`.
- The state of both `App.tsx` components: `Store`, `Storefront`, `OgStorefront`.
- One module per component:
  - `InvoiceManagement`, `DteManagement`;
  - `AuthModal`, `OgAuthModal`;
  - `CashierDashboard`;
  - `Sidebar`, `OgSidebar`.

## Model

| member | source | states |
|---|---|---|
| Text.ToLower | src/components/InvoiceManagement.tsx:49-50 | `toLowerCase` restricted to Latin-1: each character mapped by the letter table (A–Z and the Latin-1 capitals), others unchanged, so the length is kept (see Left out) |
| Text.EmptyTermMatches | src/components/InvoiceManagement.tsx:49-50 | an empty search term matches every row, since every text holds the empty text |
| Text.ContainsIffOccurs | src/components/AuthModal.tsx:88 | `includes` holds exactly when the text occurs at some position |
| Text.ContainsTransitive | src/components/AuthModal.tsx:121 | a text holding one that holds a third holds the third |
| Text.BeforeFirst | src/components/AuthModal.tsx:112 | `split(c)[0]`: the longest prefix without `c`, followed by `c` unless it is the whole text |
| Text.BeforeFirstPrefix | src/utils/dteGenerator.ts:76 | splitting `a + c + b` at the first `c` gives `a` when `a` has no `c` |
| Text.Substring | src/utils/dteGenerator.ts:15-16 | `substring(start, end)`: the slice, clipped to the text's end |
| Text.NatToString | src/App.tsx:455 | `toString()` of a whole number: decimal digits, no leading zero |
| Text.NatToStringRoundTrip | src/App.tsx:455 | the digits read back to the number |
| Text.NatToStringInjective | src/App.tsx:474 | different clock readings give different ids |
| DteWords.NumeroALetrasSimple | src/utils/dteGenerator.ts:52-72 | words for 0..999 and digits above; empty exactly for zero |
| DteWords.EnteroText | src/utils/dteGenerator.ts:30-39 | the integer-part text always ends in a space; for zero it is a single space |
| DteWords.CentavosText | src/utils/dteGenerator.ts:43-45 | the cents clause is empty exactly when there are no cents, otherwise starts with " CON "; one cent gives " CON UNO CENTAVO" |
| DteWords.AmountWords | src/utils/dteGenerator.ts:29-47 | the text starts with the integer-part text; without cents it is that text followed by the currency word alone |
| DteWords.NumeroALetras | src/utils/dteGenerator.ts:20-50 | zero is "CERO DÓLARES"; a whole amount is its integer-part text followed by the currency word, with no cents clause |
| DteWords.NumeroALetrasCien | src/utils/dteGenerator.ts:20-50 | 100 is written "CIEN DÓLARES" |
| DteWords.NumeroALetrasOneDollar | src/utils/dteGenerator.ts:40 | 1 is written "UNO DÓLAR", with the singular currency word |
| DteWords.IntegerPart | src/utils/dteGenerator.ts:27 | `Math.floor`: the whole number just below or at the amount |
| DteWords.Cents | src/utils/dteGenerator.ts:28 | `Math.round` of the fraction times 100: within a half cent, at most 100 |
| DteWordsReading.SimpleWordsValue | src/utils/dteGenerator.ts:52-72 | the words of every positive number read back, word by word, to that number |
| DteWordsReading.AmountWordsRoundTrip | src/utils/dteGenerator.ts:30-49 | the integer part, currency word and cents clause read back to the dollars and cents, with singular and plural agreeing with the value |
| DteWordsReading.NumeroALetrasRoundTrip | src/utils/dteGenerator.ts:20-50 | `numeroALetras` of any amount of at least one dollar reads back to its dollars and rounded cents |
| DteWordsReading.NumeroALetrasBelowOne | src/utils/dteGenerator.ts:40-47 | below one dollar the text starts with a bare " DÓLARES" and carries no integer part |
| AppWords.AppNumeroALetrasSimple | src/App.tsx:805-827 | the copy as written; `None` where it throws |
| AppWords.FixedNumeroALetrasSimple | src/App.tsx:805-827 | the copy with the tens table in scope; empty exactly for zero |
| AppWords.AppSimpleDefinedIff | src/App.tsx:811-818 | the written copy gives words exactly when no tens word is needed, and then the corrected words |
| AppWords.TablesAgree | src/App.tsx:775-776 | both copies' tables hold the same words, except that "DIECISEIS" has no accent in this copy |
| AppWords.CopiesAgree | src/App.tsx:805-827 | away from 16 and 21–29, the corrected copy writes what the generator's copy writes |
| AppWords.AppEnteroDefinedIff | src/App.tsx:785-794 | the integer-part text exists exactly when its segments have words |
| AppWords.AppCentavosDefinedIff | src/App.tsx:798-800 | the cents clause exists exactly when there are no cents or they have words |
| AppWords.AppAmountDefinedIff | src/App.tsx:774-803 | the amount in words exists exactly when every segment has words, and then equals the corrected text |
| AppWords.AppNumeroALetras | src/App.tsx:774-803 | zero is "CERO DOLARES"; for other amounts a text exists exactly when neither the integer part nor the cents clause throws |
| AppWords.AppWordsThrowOnThirtyFive | src/App.tsx:817 | 35 throws in the written copy; the corrected copy gives "TREINTA Y CINCO DOLARES" |
| DteCodes.VariantNibble | src/utils/dteGenerator.ts:7 | `r & 0x3 \| 0x8`: the two high bits become 10, the two low bits kept |
| DteCodes.HexDigit | src/utils/dteGenerator.ts:8 | `toString(16).toUpperCase()` of a nibble is an upper-case hexadecimal digit |
| DteCodes.HexRoundTrip | src/utils/dteGenerator.ts:8 | the printed digit reads back to the nibble |
| DteCodes.Fill | src/utils/dteGenerator.ts:5-9 | `replace(/[xy]/g, …)`: same length, non-placeholders kept, x a hex digit, y a variant digit |
| DteCodes.FillDrawOrder | src/utils/dteGenerator.ts:5-9 | the callback runs once per placeholder, left to right: the character at each position is rewritten with the draw numbered by the placeholders before it |
| DteCodes.FillUuidShaped | src/utils/dteGenerator.ts:5-9 | filling a template of the UUID shape gives the version-4 layout |
| DteCodes.GenerateUuid | src/utils/dteGenerator.ts:4-10 | 36 characters, dashes at 8, 13, 18, 23, '4' at 14, one of 8/9/A/B at 19, upper-case hex elsewhere |
| DteCodes.GenerateNumeroControl | src/utils/dteGenerator.ts:13-17 | starts with "DTE-01-", bounded by the random part and the clock digits |
| DteCodes.ParseNumeroControl | src/utils/dteGenerator.ts:16 | a parsed number is "DTE-01-" + random + "-" + clock part |
| DteCodes.NumeroControlRoundTrip | src/utils/dteGenerator.ts:13-17 | the control number splits back into the upper-cased random text and the clock digits after the first three |
| DteGenerator.Identificacion | src/utils/dteGenerator.ts:75-93 | version 1, ambiente "00", tipoDte "01", USD, normal transmission, no contingency, the control number and UUID of the draws, date and time cut at 'T' and ' ' |
| DteGenerator.TipoDocumento | src/utils/dteGenerator.ts:119 | "13" exactly when the number has a '-', "36" exactly otherwise |
| DteGenerator.Receptor | src/utils/dteGenerator.ts:118-132 | a permitted document type chosen by the '-' test; number, name and e-mail of the customer |
| DteGenerator.CuerpoLines | src/utils/dteGenerator.ts:135-153 | one line per cart line in order, numbered from 1, quantity, code, description, price, taxed sale price×qty and VAT 13 % of it; every line is a good (tipoItem 1), in unit of measure 59, with the VAT tribute code "20" |
| DteGenerator.Resumen | src/utils/dteGenerator.ts:156-197 | taxed total = sub-totals = invoice subtotal; VAT = the one tribute = invoice tax; operation total = amount due = the one payment = invoice total; operation condition 1 (cash sale) with the one payment under code "01"; amount in words of the total |
| DteGenerator.Extension | src/utils/dteGenerator.ts:200-207 | delivered by "SISTEMA AUTOMATIZADO BIKESTORE PRO" with document "12345678-9"; received by the customer's name and number; remarks with the fixed prefix |
| DteGenerator.GenerateDteFromInvoice | src/utils/dteGenerator.ts:74-224 | the document assembled from the blocks above, within the types' permitted values, the optional blocks null |
| DteGenerator.CuerpoSums | src/utils/dteGenerator.ts:148-152 | the lines' taxed sales add to the cart's subtotal and their VAT to 13 % of it |
| DteGenerator.ResumenMatchesCuerpo | src/utils/dteGenerator.ts:135-184 | for an invoice priced from its own cart, the summary agrees with the sum of the lines |
| DteGenerator.ObservacionesCount | src/utils/dteGenerator.ts:205 | the remarks end with the number of cart lines, which reads back |
| DteGenerator.TotalLetrasReadsBack | src/utils/dteGenerator.ts:183 | the amount in words reads back to the total's dollars and cents |
| Store.AddToCart | src/App.tsx:429-440 | a product in the cart has only its lines raised by the quantity, length and products kept; a new one gets one line at the end |
| Store.AddToCartUnique | src/App.tsx:429-440 | distinct product ids stay distinct |
| Store.AddToCartCount | src/App.tsx:429-440 | with distinct ids, the article count grows by the quantity |
| Store.ItemCount | src/components/CashierDashboard.tsx:299 | the article count of an empty cart is 0, and it is never negative when no quantity is |
| Store.UpdateCartQuantity | src/App.tsx:442-450 | zero or less removes exactly the product's lines and keeps the rest; more sets the product's quantity and nothing else |
| Store.RemoveKeepsOrder | src/App.tsx:444 | removal keeps the remaining lines in order |
| Store.UpdateCartQuantityUnique | src/App.tsx:442-450 | distinct product ids stay distinct |
| Store.Merge | src/App.tsx:461 | `{ ...p, ...patch }`: for each of id, name, price, stock, category and image, a field the patch supplies replaces the product's and an absent one keeps the product's value; an empty patch changes nothing |
| Store.AddProduct | src/App.tsx:452-458 | one product appended with the clock's digits as id and the draft's fields; the rest kept |
| Store.UpdateProduct | src/App.tsx:460-462 | same length; products with the id merged, the others kept |
| Store.DeleteProduct | src/App.tsx:464-466 | exactly the products with the id removed |
| Store.DeleteKeepsOrder | src/App.tsx:465 | the remaining products keep their order |
| Store.Total | src/App.tsx:469-471 | subtotal + 13 % VAT is 113 % of the subtotal, never below a non-negative subtotal |
| Store.Tax | src/App.tsx:470 | VAT is 13 % of the subtotal, between zero and the subtotal when the subtotal is non-negative |
| Store.DateOf | src/App.tsx:482 | the date is the prefix of the ISO text before its first 'T', and holds no 'T' |
| Store.TotalNonNegative | src/App.tsx:469-471 | a cart of non-negative prices and quantities has a non-negative total |
| Store.Subtotal | src/App.tsx:469 | an empty cart costs nothing; a one-line cart costs price times quantity |
| Store.SubtotalAppend | src/App.tsx:469 | the subtotal of two carts put together is the sum of their subtotals |
| Store.InitialDteRecordsShape | src/App.tsx:213-241 | three starting records with distinct ids, one approved, one pending and one rejected, with placeholder download links |
| Store.CheckoutInvoice | src/App.tsx:473-488 | id "INV-"+clock, the cart as items, its totals, the customer's data, status generated, the date part of the clock's ISO text, cashier fields exactly for a cashier |
| Store.CheckoutDteRecord | src/App.tsx:494-502 | id "DTE-"+clock, the customer, the total, pending, the date part of the clock's ISO text, "#" download links |
| Store.SetInvoiceStatus | src/App.tsx:510-514 | same length and order; only the status of the invoices with the id changes |
| Store.SetInvoiceStatusIdempotent | src/App.tsx:510-514 | setting the same status twice gives the same list as setting it once |
| Store.SetDteStatus | src/App.tsx:1070-1074 | same length and order; only the status of the records with the id changes |
| Storefront.GuardMatchesScreens | src/App.tsx:394-417 | the guard passes exactly the screens of the visitor's role, and prompts for a role that may enter |
| Storefront.AuthPrompt | src/App.tsx:394-417 | the dialog asks for an administrator exactly for the dashboard or DTE screens when the user is not one, for a cashier exactly for the till when the user is not one, and for a customer exactly for payment or the invoice list when nobody is signed in |
| Storefront.LandingView | src/App.tsx:358-370 | dashboard for administrators, till for cashiers, shop for customers; always past the guard |
| Storefront.InitialView | src/App.tsx:245-256 | a saved administrator or cashier lands on their screen; otherwise the saved screen or the shop |
| Storefront.RefreshImages | src/App.tsx:271-286 | same length; a saved product the built-in catalogue has (found by `find`) takes that product's picture and keeps every other field; one it lacks is kept unchanged |
| Storefront.FindProduct | src/App.tsx:278 | `find`: none exactly when no product has the id, else the first product in order whose id matches |
| Storefront.App.constructor | src/App.tsx:245-306 | each field is its saved value or its default; products get the built-in pictures |
| Storefront.App.HandleLogin | src/App.tsx:352-371 | signed in, dialog and sidebar closed, on the role's landing screen |
| Storefront.App.HandleLogout | src/App.tsx:373-387 | nobody signed in, empty cart, shop as screen and return screen |
| Storefront.App.HandleShowAuth | src/App.tsx:389-392 | the dialog opens for the role; nothing else changes |
| Storefront.App.HandleViewChange | src/App.tsx:394-427 | a refused screen opens the dialog for the guard's role and changes no screen; an allowed one is shown, remembering the source for an invoice; the screen stays one the user may enter |
| Storefront.App.AddToCart | src/App.tsx:429-440 | the cart becomes `AddToCart` of it; distinct ids stay distinct; nothing else changes |
| Storefront.App.UpdateCartQuantity | src/App.tsx:442-450 | the cart becomes `UpdateCartQuantity` of it; distinct ids stay distinct |
| Storefront.App.AddProduct | src/App.tsx:452-458 | the catalogue becomes `AddProduct` of it |
| Storefront.App.UpdateProduct | src/App.tsx:460-462 | the catalogue becomes `UpdateProduct` of it |
| Storefront.App.DeleteProduct | src/App.tsx:464-466 | the catalogue becomes `DeleteProduct` of it |
| Storefront.App.ProcessPayment | src/App.tsx:468-508 | the checkout invoice is current and first in the list, its pending record first in the DTE list, the cart empty, the invoice screen shown with the previous screen to return to |
| Storefront.App.UpdateInvoiceStatus | src/App.tsx:510-514 | the invoices become `SetInvoiceStatus` of them |
| Storefront.App.SendInvoiceByEmail | src/App.tsx:516-525 | the invoice ends up sent |
| Storefront.App.UpdateDteStatus | src/App.tsx:1070-1074 | the records become `SetDteStatus` of them |
| Storefront.App.HandleBackNavigation | src/App.tsx:947-950 | back to the screen the invoice was opened from |
| Storefront.App.HandleViewInvoice | src/App.tsx:952-955 | the invoice becomes current and is shown, as a guarded view change |
| Storefront.App.ToggleSidebar | src/App.tsx:1098 | the sidebar flag flips |
| OgStorefront.OgGuardMatchesScreens | project-prototype-OG/src/App.tsx:131-146 | the older guard passes exactly the role's screens (the invoice list open to guests) and prompts for a role that may enter |
| OgStorefront.OgAuthPrompt | project-prototype-OG/src/App.tsx:131-142 | the older guard asks for an administrator exactly for the dashboard or DTE screens when the user is not one, and for a customer exactly for payment when nobody is signed in |
| OgStorefront.OgLandingView | project-prototype-OG/src/App.tsx:112-116 | dashboard for administrators, shop for customers; past the guard |
| OgStorefront.OgCheckoutInvoice | project-prototype-OG/src/App.tsx:188-203 | the cart, its totals, the customer's data, status generated, the date part of the clock's ISO text, no cashier fields |
| OgStorefront.OgApp.constructor | project-prototype-OG/src/App.tsx:66-104 | the shop, nobody signed in, the catalogue, empty cart and lists, the three sample records |
| OgStorefront.OgApp.HandleLogin | project-prototype-OG/src/App.tsx:106-117 | signed in, dialog and sidebar closed, on the role's landing screen |
| OgStorefront.OgApp.HandleLogout | project-prototype-OG/src/App.tsx:119-124 | nobody signed in, empty cart, the shop |
| OgStorefront.OgApp.HandleShowAuth | project-prototype-OG/src/App.tsx:126-129 | the dialog opens for the role |
| OgStorefront.OgApp.HandleViewChange | project-prototype-OG/src/App.tsx:131-146 | a refused screen opens the dialog and keeps the screen; an allowed one is shown |
| OgStorefront.OgApp.AddToCart | project-prototype-OG/src/App.tsx:148-159 | the same merge-or-append as the current tree |
| OgStorefront.OgApp.UpdateCartQuantity | project-prototype-OG/src/App.tsx:161-169 | the same remove-or-set as the current tree |
| OgStorefront.OgApp.AddProduct | project-prototype-OG/src/App.tsx:171-177 | one product appended |
| OgStorefront.OgApp.UpdateProduct | project-prototype-OG/src/App.tsx:179-181 | products with the id merged, length kept |
| OgStorefront.OgApp.DeleteProduct | project-prototype-OG/src/App.tsx:183-185 | the products with the id removed |
| OgStorefront.OgApp.ProcessPayment | project-prototype-OG/src/App.tsx:187-223 | the invoice and a pending record put first, cart emptied, the invoice screen set directly |
| OgStorefront.OgApp.UpdateDteStatus | project-prototype-OG/src/App.tsx:406-410 | only the status of the records with the id changes |
| OgStorefront.OgApp.InvoiceBack | project-prototype-OG/src/App.tsx:386 | the invoice screen's back button leads to the shop |
| OgStorefront.OgApp.ViewInvoice | project-prototype-OG/src/App.tsx:394-397 | the invoice becomes current and its screen is set directly |
| InvoiceManagement.UserInvoices | src/components/InvoiceManagement.tsx:42-46 | administrators see all; otherwise exactly the visible invoices (cashier by id, others by e-mail); a guest none |
| InvoiceManagement.UserInvoicesKeepOrder | src/components/InvoiceManagement.tsx:42-46 | the scoped list is a subsequence of the invoices |
| InvoiceManagement.FilteredInvoices | src/components/InvoiceManagement.tsx:48-53 | exactly the scoped invoices whose name or id holds the term, ignoring case, and whose status is chosen |
| InvoiceManagement.FilteredInvoicesKeepOrder | src/components/InvoiceManagement.tsx:48 | the filtered list is a subsequence of the scoped list |
| InvoiceManagement.NoFilterShowsAll | src/components/InvoiceManagement.tsx:48-53 | an empty term and "all" keep every scoped invoice |
| InvoiceManagement.Stats | src/components/InvoiceManagement.tsx:98-100 | count = listed, amount = sum of totals, paid = the number of listed invoices whose status is paid (so paid ≤ count) |
| Seqs.CountPositions | src/components/InvoiceManagement.tsx:100 | `filter(p).length` is the number of positions whose element satisfies `p` |
| InvoiceManagement.PaidFilterAllPaid | src/components/InvoiceManagement.tsx:48-100 | with the "paid" filter, every counted invoice is paid |
| InvoiceManagement.TotalAmountNonNegative | src/components/InvoiceManagement.tsx:99 | non-negative totals add to a non-negative amount |
| InvoiceManagement.OfferedStatuses | src/components/InvoiceManagement.tsx:313-333 | "sent" offered exactly to administrators and cashiers on generated invoices; "paid" exactly to administrators on unpaid ones |
| InvoiceManagement.OfferedMovesForward | src/components/InvoiceManagement.tsx:313-333 | offered moves only go forward, and never to a customer |
| DteManagement.FilteredRecords | src/components/DTEManagement.tsx:18-24 | exactly the records whose name or id holds the term, ignoring case, with the chosen status |
| DteManagement.FilteredRecordsKeepOrder | project-prototype-OG/src/components/DTEManagement.tsx:17-22 | the filtered list is a subsequence of the records |
| DteManagement.NoFilterShowsAllRecords | src/components/DTEManagement.tsx:18-24 | an empty term and "all" keep every record |
| DteManagement.Counts | src/components/DTEManagement.tsx:62-65 | total = the number of records; approved, pending and rejected each = the number of records with that status; the three add up to the total |
| DteManagement.CountsPartition | project-prototype-OG/src/components/DTEManagement.tsx:58-61 | every record is counted under exactly one status |
| DteManagement.OfferedStatuses | src/components/DTEManagement.tsx:227-244 | buttons exist exactly for pending records and never lead back to pending |
| DteManagement.OfferedDecides | project-prototype-OG/src/components/DTEManagement.tsx:230-246 | an offered move takes a pending record to approved or rejected |
| DteManagement.StatusCode | src/components/DTEManagement.tsx:81 | the status text is lower-case letters |
| DteManagement.StatusOfCode | src/components/DTEManagement.tsx:81 | reading a status text gives the status it prints |
| DteManagement.StatusCodeRoundTrip | src/components/DTEManagement.tsx:81 | every status text reads back |
| DteManagement.RoundedCents | src/components/DTEManagement.tsx:79 | `toFixed(2)` rounding: within half a cent |
| DteManagement.ToFixed2 | src/components/DTEManagement.tsx:79 | digits and a point, a minus sign exactly for negatives |
| DteManagement.Fixed2ReadsBack | src/components/DTEManagement.tsx:79 | the text has two decimals and reads back to the rounded cents |
| DteManagement.ReadFields | src/components/DTEManagement.tsx:75-83 | a read of a template gives one field per gap |
| DteManagement.ReadInterleave | src/components/DTEManagement.tsx:75-83 | fields placed between delimiting separators read back |
| DteManagement.RecordFields | src/components/DTEManagement.tsx:77-81 | five fields: id, customer, amount, date, status |
| DteManagement.XmlReadsBack | src/components/DTEManagement.tsx:75-83 | the XML lists the record's ID, Cliente, Monto, Fecha, Estado in that order |
| DteManagement.PdfReadsBack | src/components/DTEManagement.tsx:94 | the text file lists the same five fields in the same order |
| DteManagement.XmlContent | src/components/DTEManagement.tsx:75-83 | the XML starts with the `<DTE>` and `<ID>` tags, the record's id and the closing `</ID>` |
| DteManagement.PdfContent | src/components/DTEManagement.tsx:94 | the text starts with the "DTE PDF SIMULADO" title and the record's id on its "ID:" line |
| DteManagement.Extension | src/components/DTEManagement.tsx:85-96 | a non-empty extension without a point |
| DteManagement.HandleDownload | src/components/DTEManagement.tsx:68-103 | file name id + "." + extension, whose last extension is the type's; XML, JSON, text content with the matching mime type |
| DteManagement.AfterLast | src/components/DTEManagement.tsx:103 | the part after the last point: a suffix without a point |
| DteManagement.AfterLastSuffix | src/components/DTEManagement.tsx:103 | the extension after the record's id reads back |
| AuthModal.Login | src/components/AuthModal.tsx:68-118 | a sign-in keeps the e-mail; administrator only with "admin123" and "admin" in it, cashier only with "cajera123" and "cajera", customer only with "cliente123"; "cliente123" always signs in |
| AuthModal.LoginRefusedIff | src/components/AuthModal.tsx:117-118 | refused exactly when no rule matches |
| AuthModal.DemoAccounts | src/components/AuthModal.tsx:69-85 | the three demo pairs give the three demo users |
| AuthModal.GenericCustomerName | src/components/AuthModal.tsx:108-113 | a generic customer is named by the text before the first '@' |
| AuthModal.DetectRole | src/components/AuthModal.tsx:121-126 | administrator exactly with "admin"; cashier exactly without it and with "cajera" or "cashier" |
| AuthModal.AdministradorHoldsAdmin | src/components/AuthModal.tsx:121 | the "administrador" test adds nothing to the "admin" test |
| AuthModal.Register | src/components/AuthModal.tsx:128-134 | the required role or the detected one; the tax number kept exactly when the detected role is customer |
| AuthModal.OpenedForm | src/components/AuthModal.tsx:29-40 | opening empties the fields and presets the required role or customer |
| AuthModal.OpenedFormSubmits | src/components/AuthModal.tsx:29-40 | a fresh form signs nobody in and registers with its preset role |
| AuthModal.HandleSubmit | src/components/AuthModal.tsx:65-139 | a sign-in returns before closing; a registration closes |
| OgAuthModal.OgLogin | project-prototype-OG/src/components/AuthModal.tsx:49-57 | signs in exactly the two demo pairs, as the matching demo user |
| OgAuthModal.InitialForm | project-prototype-OG/src/components/AuthModal.tsx:20-26 | empty fields, role preset to the required one or customer |
| OgAuthModal.OgRegister | project-prototype-OG/src/components/AuthModal.tsx:60-66 | the form's role; the tax number exactly for customers |
| OgAuthModal.OgHandleSubmit | project-prototype-OG/src/components/AuthModal.tsx:45-71 | closes exactly when someone signs in or registers |
| OgAuthModal.InitialFormSubmits | project-prototype-OG/src/components/AuthModal.tsx:25 | the initial form signs nobody in; registering from it gives the preset role |
| CashierDashboard.FilteredProducts | src/components/CashierDashboard.tsx:46-49 | exactly the products whose name or category holds the term, ignoring case |
| CashierDashboard.FilteredProductsKeepOrder | src/components/CashierDashboard.tsx:46 | in catalogue order |
| CashierDashboard.EmptySearchShowsAll | src/components/CashierDashboard.tsx:46-49 | an empty search shows the catalogue |
| CashierDashboard.PanelTotals | src/components/CashierDashboard.tsx:51-53 | the same subtotal, VAT and total as checkout |
| CashierDashboard.AddButton | src/components/CashierDashboard.tsx:126-127 | the add button of an available product adds one article on the product's line, ids kept distinct |
| CashierDashboard.PlusAddsOne | src/components/CashierDashboard.tsx:166 | the plus button adds exactly one article |
| CashierDashboard.SetLineCount | src/components/CashierDashboard.tsx:159-166 | setting a line to q changes the article count by the difference |
| CashierDashboard.DropButtons | src/components/CashierDashboard.tsx:159-172 | minus on a line of one, and remove on any line, take the product out and keep the other lines |
| CashierDashboard.RecordedMethod | src/components/CashierDashboard.tsx:70 | cash is recorded as transfer, card as card |
| CashierDashboard.ButtonMatchesGuard | src/components/CashierDashboard.tsx:285 | the sale button is disabled exactly when the guard refuses |
| CashierDashboard.SalePayload | src/components/CashierDashboard.tsx:66-71 | the customer's three fields and the recorded method, no card data |
| CashierDashboard.SaleInvoice | src/components/CashierDashboard.tsx:66-73 | a cashier's sale makes an invoice with the cashier, the customer and the till's total |
| CashierDashboard.CashierPanel.constructor | src/components/CashierDashboard.tsx:37-44 | empty search and customer fields, cash, form hidden |
| CashierDashboard.CashierPanel.ProcessSale | src/components/CashierDashboard.tsx:55-78 | hands on a payload exactly when the guard holds, then empties the customer fields; otherwise nothing changes |
| CashierDashboard.CashierPanel.SetPaymentMethod | src/components/CashierDashboard.tsx:260-271 | only the method changes |
| Sidebar.MenuItems | src/components/Sidebar.tsx:37-65 | every entry passes the view guard for that visitor; no screen twice; invoice list exactly for signed-in visitors; shop and cart exactly for guests and customers |
| Sidebar.MenuWithinScreens | src/components/Sidebar.tsx:59-65 | the menu lists only screens of the role's table |
| Sidebar.RoleLabelsDistinct | src/components/Sidebar.tsx:89-98 | the three roles get three different labels |
| Sidebar.RoleLabel | src/components/Sidebar.tsx:89-98 | "Administrador" exactly for an administrator, "Cajera" exactly for a cashier, "Cliente" exactly for a customer |
| Sidebar.OneActiveEntry | src/components/Sidebar.tsx:175 | at most one entry is highlighted, one exactly when the screen is on the menu |
| Sidebar.Badge | src/components/Sidebar.tsx:191 | a badge exactly on the cart entry with a positive count, showing the count |
| Sidebar.CartBadge | src/App.tsx:1093 | the cart badge counts lines and shows exactly for a non-empty cart |
| Sidebar.BadgeOnlyOnCart | src/components/Sidebar.tsx:191 | at most one badge; none for administrators and cashiers |
| Sidebar.BadgeCountsLines | src/App.tsx:1093 | three of one product show a badge of 1, while the article count is 3 |
| OgSidebar.OgMenuItems | project-prototype-OG/src/components/Sidebar.tsx:38-50 | every entry passes the older guard; no screen twice; the invoice list for everybody; administrator screens exactly for administrators |
| OgSidebar.OgMenuWithinScreens | project-prototype-OG/src/components/Sidebar.tsx:50 | the menu lists only screens of the role's table |
| OgSidebar.OgOneActiveEntry | project-prototype-OG/src/components/Sidebar.tsx:131 | at most one entry is highlighted |
| OgSidebar.OgBadge | project-prototype-OG/src/components/Sidebar.tsx:147 | a badge exactly on the cart entry with a positive count |
| OgSidebar.OgBadgeOnlyOnCart | project-prototype-OG/src/components/Sidebar.tsx:147 | a badge exactly when the count is positive and the visitor is no administrator, and at most one |

## Left out

- Browser storage (`localStorage` reads, writes and JSON parsing) is not modelled. The values read at start-up are the constructor's `SavedState`.
- The clock, `Math.random` and `new Date()` are parameters: `ClockReading`, `Environment`, `nowMillis` and the UUID draws.
- The `setTimeout` in `handleLogin` is not modelled; the landing screen is set at once.
- The two-second wait and the alert in `sendInvoiceByEmail` are not modelled. Its closure sees the invoice list of the moment it was called, which a later update could overwrite.
- Alerts, spinners, JSX, styling and icons are not modelled.
- The hand-written PDF and XML invoice templates and the Blob/anchor download plumbing in `App.tsx` and `ElectronicInvoice.tsx` are not modelled. They are text templates over data that `DteGenerator` already models.
- The DTE download's `JSON.stringify` content is represented by the record itself (`JsonOf`). The same applies to `generateDTEJSON`.
- Floating point is not modelled. Amounts are exact reals, so `toFixed` and `Math.round` round the exact value.
- DteGenerator.Resumen, DteGenerator.GenerateDteFromInvoice and DteWords.NumeroALetras: defined for non-negative totals only. A negative total has no meaningful amount in words (`Math.floor` and `Math.round` of negatives are not modelled).
- The built-in catalogue (`initialProducts`) is a constructor parameter, not a constant.
- `src/utils/InvoiceGenerator.ts` (a jsPDF wrapper), `PaymentGateway.tsx`, `ShoppingCart.tsx` and the older `Header.tsx` are not part of this model.
  - Their totals are the ones `Store.Total` and `CashierDashboard.PanelTotals` state.
- Storefront.InitialView follows the code: a saved customer or guest is restored to the saved screen, not sent to the shop.
- DteWords.NumeroALetrasSimple follows the code: 21–29 are written "VEINTE Y …", with no "VEINTI" contraction (that contraction exists only in the `App.tsx` copy).
- DteWordsReading.NumeroALetrasRoundTrip covers amounts of at least one dollar. Below one dollar the text has no integer part (DteWordsReading.NumeroALetrasBelowOne).
- Text.ToLower lowers only A–Z and the Latin-1 capitals À–Þ (not ×). JavaScript's `toLowerCase` lowers all of Unicode, and for some characters (such as 'İ', which becomes two code units) it changes the length. Characters outside Latin-1 are left unchanged here, so search terms that use them can match differently.
- The older sidebar's role caption (`capitalize` of the role name) and the icons of both sidebars are not modelled.

## Findings

| source | as written | input that shows it | evidently intended | confidence | as-written member | corrected member |
|---|---|---|---|---|---|---|
| src/App.tsx:817 | `numeroALetrasSimple` reads `decenas`, which is declared only inside `numeroALetras` (src/App.tsx:776), so the tens branch throws a ReferenceError | 35 (any segment of 20 or 30–99): `numeroALetras(35)` throws instead of giving "TREINTA Y CINCO DOLARES" | the tens table in scope, giving the tens word plus " Y " and the unit | not executed | AppWords.AppWordsThrowOnThirtyFive | AppWords.FixedNumeroALetrasSimple |
