# FITCOMPANY admin console — a Dafny model

FITCOMPANY is an Angular administration console for a gym shop. Its dashboard screens keep the
catalogue and the operations of the business: sales (`ventas`), products (`productos`), purchases
(`compras`), units of measure (`unidades-medidas`), categories (`categorias`), identification types
(`tipos-identificaciones`), users (`usuarios`), roles (`roles`), profiles (`perfiles`) and the
permissions a profile has on each form (`permisos`). Two shared services sit beside them: the
stock-alert builder (`alerts.service.ts`) and the session service that stores and reads the JWT
(`auth.service.ts`).

This project models the logic of those screens and services and proves what they promise:

- each screen is a class whose fields are the component's state (form, messages, `saving`, edit
  mode, confirmation dialog); its methods are the component's handlers and state, in `ensures`,
  the whole new state, with the request the handler sends returned as a value;
- each screen's validation chain is a pure function returning the first failed rule, with an
  if-and-only-if lemma saying which forms it accepts;
- the shared input mask (digits only, clamped, thousands dots) is one module with its round trips;
- stock alerts are built by a loop over the products proved against a reference definition
  ("the alert of the last product raising each key"), then sorted by a stable sort;
- the session service decides authentication from the token's expiry, with the base64url
  decoding step made explicit and the JSON decoding passed in as a parameter.

Modules: `Wrappers` (Option, Result), `Text` (JavaScript string built-ins: `\s`, `trim`,
`replace(/\s+/g, ' ')`, `toLowerCase`, `split`/`join`, `padStart`, decimal conversion), `Feedback`
(message triples and the generic dialog), `Confirm` (the pending-delete modal), `DigitMask`,
`Models`, `NameRules` (the name/description rules shared by units, roles and categories), `Canon`
(the protected-name canonical forms), and one module per screen or service: `Ventas`, `Productos`,
`Compras`, `Alerts`, `Usuarios`, `Unidades`, `Roles`, `Perfiles`, `Categorias`, `Tipos`,
`Permisos`, `Auth`.

Where a handler sends an HTTP request, the model returns the request as a value; what the
component does with the answer is a separate method taking the answer as a parameter
(`OnDeleteError`, `OnSaved`, `ApplyDuplicateAnswer`, …).

## Model

| member | source | states |
|---|---|---|
| DigitMask.OnlyDigits | src/app/components/dashboard/pages/ventas/ventas.ts:64 | keeps only decimal digits (`replace(/\D/g, '')`), never lengthening the text |
| DigitMask.OnlyDigitsConcat | src/app/components/dashboard/pages/ventas/ventas.ts:64 | digit filtering works piecewise: filtering a concatenation is concatenating the filtered pieces |
| DigitMask.ClampDigits | src/app/components/dashboard/pages/ventas/ventas.ts:64-65 | the clamped text holds only digits, exactly `min(maxLen, number of digits)` of them, and they are the first digits of the input in order |
| DigitMask.ClampDigitsIdempotent | src/app/components/dashboard/pages/ventas/ventas.ts:64-65 | clamping an already clamped value changes nothing |
| DigitMask.WithThousands | src/app/components/dashboard/pages/ventas/ventas.ts:66 | `withThousands`: a '.' goes before each digit that has a positive multiple of three digits after it; DigitMask.WithThousandsByGroups proves this equals grouping by threes from the right |
| DigitMask.WithThousandsByGroups | src/app/components/dashboard/pages/ventas/ventas.ts:66 | the lookahead regex that inserts dots is the same as cutting the digits into groups of three from the right |
| DigitMask.WithThousandsFacts | src/app/components/dashboard/pages/ventas/ventas.ts:66 | dropping the dots gives back exactly the digits; the length grows by one dot per full group; up to three digits are left alone; no dot at either end; every group after the first has three digits and the first has one to three |
| DigitMask.Unmask | src/app/components/dashboard/pages/ventas/ventas.ts:67 | `unmask`: the number the value's digits denote, 0 when it has none; DigitMask.UnmaskMasked and DigitMask.DisplayNatRoundTrip tie it to the mask |
| DigitMask.UnmaskMasked | src/app/components/dashboard/pages/ventas/ventas.ts:64-67 | reading back a masked field yields the value of its clamped digits, which is below `10^maxLen` |
| DigitMask.MaskIdempotent | src/app/components/dashboard/pages/ventas/ventas.ts:64-66 | masking the masked display again yields the same digits |
| DigitMask.MaskInput | src/app/components/dashboard/pages/productos/productos.ts:119-143 | the display holds exactly the clamped digits; the control is null exactly when the display is empty, and otherwise holds the display's numeric value, below `10^maxLen` |
| DigitMask.DisplayNatRoundTrip | src/app/components/dashboard/pages/productos/productos.ts:236-258 | a stored number shown for editing reads back as the same number, and re-masking it keeps the display and the value when it fits the digit limit |
| DigitMask.ShownNumber | src/app/components/dashboard/pages/productos/productos.ts:251-254 | how `editar` shows a stored number: the empty text for a missing one, otherwise its digits grouped by thousands; DigitMask.ShownNumberRoundTrip proves it reads back as the number |
| DigitMask.ShownNumberRoundTrip | src/app/components/dashboard/pages/productos/productos.ts:236-258 | a missing number is shown as the empty text; a non-negative stored number is shown as a text whose value is that number |
| DigitMask.BlocksInput | src/app/components/dashboard/pages/ventas/ventas.ts:69-81 | `onBeforeInputDigits`: exempt input types never block; otherwise a missing selection end reads as the text's end, and the guard blocks when the digits before the selection, of the inserted data and after it exceed the limit; DigitMask.BlocksInputIffOverflow states the condition |
| DigitMask.BlocksInputIffOverflow | src/app/components/dashboard/pages/ventas/ventas.ts:69-81 | `beforeinput` never blocks deletions and undo/redo; any other input is blocked exactly when the digits of the text it would produce exceed the limit |
| DigitMask.AdmittedInputKeepsAllDigits | src/app/components/dashboard/pages/ventas/ventas.ts:69-89 | an input that `beforeinput` lets through is not cut by the later clamp: every digit it produces is kept |
| Ventas.Subtotal | src/app/components/dashboard/pages/ventas/ventas.ts:159-164 | `subtotal(i)`: the unmasked quantity times the unit price (0 when missing) |
| Ventas.TotalOf | src/app/components/dashboard/pages/ventas/ventas.ts:166-172 | `total`: the `reduce` over the lines; Ventas.TotalIsSumOfSubtotals proves it is the sum of the subtotals |
| Ventas.TotalIsSumOfSubtotals | src/app/components/dashboard/pages/ventas/ventas.ts:159-172 | the `reduce` total equals the sum of the per-line subtotals (quantity times unit price) |
| Ventas.Validation | src/app/components/dashboard/pages/ventas/ventas.ts:193-219 | `validar`'s checks in source order, each failure with its message; Ventas.ValidationAcceptsIff relates it to the independent validity rules |
| Ventas.ValidationAcceptsIff | src/app/components/dashboard/pages/ventas/ventas.ts:193-219 | `validar` accepts exactly the sales with 1 to 200 lines, each with a product, a quantity in 1..999.999 and a price in 1..99.999.999, no product twice, and a total in 1..99.999.999 |
| Ventas.MessageEmptyIff | src/app/components/dashboard/pages/ventas/ventas.ts:193-219 | the validation message is empty exactly when the sale is valid |
| Ventas.FirstRowErrorIsFirst | src/app/components/dashboard/pages/ventas/ventas.ts:199-212 | the row error reported is the one of the first failing row, and every earlier row passes |
| Ventas.ValidationReportsFirstBadRow | src/app/components/dashboard/pages/ventas/ventas.ts:193-219 | when some row fails, the reported error names a row before which all rows are valid and distinct, and says truly what is wrong with it (no product, repeated product, quantity or price out of range) |
| Ventas.PayloadTotal | src/app/components/dashboard/pages/ventas/ventas.ts:227-231 | the items sent add up to the same total the form shows |
| Ventas.PayloadOfValidSale | src/app/components/dashboard/pages/ventas/ventas.ts:221-231 | a sale that passes validation sends items with a product, an in-range quantity and price, and no product twice |
| Ventas.EditThenSubmitRoundTrip | src/app/components/dashboard/pages/ventas/ventas.ts:275-295 | loading a stored sale for editing and submitting it unchanged sends exactly the stored items |
| Ventas.PriceOf | src/app/components/dashboard/pages/ventas/ventas.ts:142-157 | the price filled in is the unit price of the first catalogue product with that id (0 when it has none), or 0 when no product has that id |
| Ventas.AfterProductoChange | src/app/components/dashboard/pages/ventas/ventas.ts:136-157 | choosing a product already used on another line clears that line's product and price; otherwise the line gets the product's catalogue price; other lines and the quantity are untouched, and the product ends up on no other line |
| Ventas.ProductoChangeKeepsDistinct | src/app/components/dashboard/pages/ventas/ventas.ts:136-157 | if the other lines used distinct products, after the change all lines do |
| Ventas.SaleForm.constructor | src/app/components/dashboard/pages/ventas/ventas.ts:28-47 | the form starts with one empty line, no products, no messages, not saving or editing, confirmation closed |
| Ventas.SaleForm.LoadProductos | src/app/components/dashboard/pages/ventas/ventas.ts:92-98 | the product catalogue is replaced by the loaded rows; nothing else changes |
| Ventas.SaleForm.ShowOk | src/app/components/dashboard/pages/ventas/ventas.ts:178 | sets the success message and clears the error |
| Ventas.SaleForm.ShowError | src/app/components/dashboard/pages/ventas/ventas.ts:179 | sets the error message and clears the success message |
| Ventas.SaleForm.AgregarLinea | src/app/components/dashboard/pages/ventas/ventas.ts:107-118 | appends one empty line when there are fewer than 200, otherwise leaves the lines as they are; never exceeds 200 |
| Ventas.SaleForm.EliminarLinea | src/app/components/dashboard/pages/ventas/ventas.ts:120-124 | removes exactly line `i` when it exists, keeping the others in order |
| Ventas.SaleForm.GetSelectedIds | src/app/components/dashboard/pages/ventas/ventas.ts:125-134 | returns exactly the non-empty product ids chosen on the lines other than the excluded one |
| Ventas.SaleForm.IsProductoOcupado | src/app/components/dashboard/pages/ventas/ventas.ts:136-140 | true exactly when another line already has that (non-empty) product |
| Ventas.SaleForm.OnProductoChange | src/app/components/dashboard/pages/ventas/ventas.ts:142-157 | the lines become `AfterProductoChange`; the duplicate-product error is shown exactly when the product was taken |
| Ventas.SaleForm.OnInputMasked | src/app/components/dashboard/pages/ventas/ventas.ts:83-89 | the quantity of line `i` becomes the masked display of the clamped digits, whose value is below `10^max` |
| Ventas.SaleForm.Validar | src/app/components/dashboard/pages/ventas/ventas.ts:193-219 | returns the message of the first failed rule, empty when the sale is valid |
| Ventas.SaleForm.Submit | src/app/components/dashboard/pages/ventas/ventas.ts:221-243 | does nothing while saving; on a validation failure shows `❌` and the message; otherwise starts saving and sends the payload as a create, or as an update of the sale being edited |
| Ventas.SaleForm.Editar | src/app/components/dashboard/pages/ventas/ventas.ts:275-295 | enters edit mode for the sale and loads its stored items as lines |
| Ventas.SaleForm.ConfirmarEliminar | src/app/components/dashboard/pages/ventas/ventas.ts:296-299 | opens the confirmation with that sale pending |
| Ventas.SaleForm.CloseConfirm | src/app/components/dashboard/pages/ventas/ventas.ts:300-303 | closes the confirmation with nothing pending |
| Ventas.SaleForm.DoEliminarConfirmado | src/app/components/dashboard/pages/ventas/ventas.ts:304-328 | closes the confirmation and deletes exactly the pending sale, if any |
| Ventas.SaleForm.ResetForm | src/app/components/dashboard/pages/ventas/ventas.ts:333-341 | leaves edit mode with one empty line |
| Confirm.Confirmed | src/app/components/dashboard/pages/compras/compras.ts:182-206 | confirming always closes the modal, and the delete goes out exactly for the pending record, if one is pending |
| Confirm.AskThenConfirm | src/app/components/dashboard/pages/compras/compras.ts:182-206 | asking about a record and then confirming deletes that record |
| Productos.Set | src/app/components/dashboard/pages/productos/productos.ts:119-143 | writing one masked field changes that field and no other |
| Productos.StocksValid | src/app/components/dashboard/pages/productos/productos.ts:166-176 | `stocksValid`: the maximum must be positive, then the actual stock must not be below the minimum nor above the maximum; Productos.StocksValidIff states when it passes |
| Productos.StocksValidIff | src/app/components/dashboard/pages/productos/productos.ts:166-176 | the stock rules accept exactly a positive maximum with the actual stock between minimum and maximum; each error is reported under exactly its condition |
| Productos.IsOutOfRange | src/app/components/dashboard/pages/productos/productos.ts:178-183 | `isOutOfRange`: stock below the minimum, or above a positive maximum (missing values read as 0); Productos.OutOfRangeMatchesStockRules compares it with the form's rules |
| Productos.OutOfRangeMatchesStockRules | src/app/components/dashboard/pages/productos/productos.ts:166-183 | the table's out-of-range flag agrees with the stock rules whenever the maximum is positive; with no maximum it only flags a stock below the minimum |
| Productos.CheckProduct | src/app/components/dashboard/pages/productos/productos.ts:186-198 | `submit`'s checks in source order: name, price in 1..99.999.999, unit, category, stocks; Productos.CheckProductAcceptsIff states what it accepts |
| Productos.CheckProductAcceptsIff | src/app/components/dashboard/pages/productos/productos.ts:186-198 | the product form is accepted exactly when it has a name, a price in 1..99.999.999, a unit, a category and valid stocks |
| Productos.BodyTextsNormalized | src/app/components/dashboard/pages/productos/productos.ts:207-208 | the name and description sent are trimmed and single-spaced and keep every non-space character of the input |
| Productos.AcceptedBody | src/app/components/dashboard/pages/productos/productos.ts:186-208 | an accepted form sends a unit and a category, and the name sent is empty only when the typed name was blank |
| Productos.ProductScreen.constructor | src/app/components/dashboard/pages/productos/productos.ts:48-77 | empty form, blank masked fields, no messages, not saving or editing, confirmation closed |
| Productos.ProductScreen.ShowOk | src/app/components/dashboard/pages/productos/productos.ts:92 | shows only the success message |
| Productos.ProductScreen.ShowError | src/app/components/dashboard/pages/productos/productos.ts:93 | shows only the error message |
| Productos.ProductScreen.ShowInline | src/app/components/dashboard/pages/productos/productos.ts:94 | shows only the inline message |
| Productos.ProductScreen.OnInputMasked | src/app/components/dashboard/pages/productos/productos.ts:119-143 | the display of the field becomes the masked digits and its numeric control the unmasked value (null when empty); the inline error is cleared |
| Productos.ProductScreen.Submit | src/app/components/dashboard/pages/productos/productos.ts:186-235 | does nothing while saving; a failed check shows its message inline; otherwise starts saving and sends the normalised body as a create, or as an update of the product being edited |
| Productos.ProductScreen.Editar | src/app/components/dashboard/pages/productos/productos.ts:236-258 | enters edit mode for the product, loads its fields and shows its numbers masked |
| Productos.ProductScreen.ConfirmarEliminar | src/app/components/dashboard/pages/productos/productos.ts:263-266 | opens the confirmation with that product pending |
| Productos.ProductScreen.CloseConfirm | src/app/components/dashboard/pages/productos/productos.ts:267-270 | closes the confirmation |
| Productos.ProductScreen.DoEliminarConfirmado | src/app/components/dashboard/pages/productos/productos.ts:271-287 | closes the confirmation and deletes exactly the pending product, if any |
| Productos.ProductScreen.ResetForm | src/app/components/dashboard/pages/productos/productos.ts:288-305 | leaves edit mode with an empty form and blank masked fields |
| Compras.ToTodayISO | src/app/components/dashboard/pages/compras/compras.ts:54-61 | `toTodayISO`: year, 1-based month and day joined by '-', month and day padded to two digits; Compras.ToTodayISOFields reads the fields back |
| Compras.ToTodayISOFields | src/app/components/dashboard/pages/compras/compras.ts:54-61 | today's date text splits on `-` into the year, the 1-based month and the day, the last two padded to two digits |
| Compras.DdmmyyyyToISO | src/app/components/dashboard/pages/compras/compras.ts:238-243 | `ddmmyyyyToISO`: '' for an empty text or a missing or empty part, otherwise the parts reordered as `yyyy-mm-dd` with padding; Compras.DdmmyyyyToISOParts and Compras.DdmmyyyyToISONoSlash cover both outcomes |
| Compras.DdmmyyyyToISOParts | src/app/components/dashboard/pages/compras/compras.ts:238-243 | a `dd/mm/yyyy` text with three non-empty parts becomes `yyyy-mm-dd`, month and day padded to two characters |
| Compras.DdmmyyyyToISOMatchesToday | src/app/components/dashboard/pages/compras/compras.ts:54-61 | converting a date written `d/m/yyyy` gives the same text `toTodayISO` produces for that date |
| Compras.DdmmyyyyToISONoSlash | src/app/components/dashboard/pages/compras/compras.ts:238-243 | a text without `/` converts to the empty text |
| Compras.CheckPurchase | src/app/components/dashboard/pages/compras/compras.ts:112-122 | `submit`'s checks in source order: product, quantity in 1..999.999, cost in 1..99.999.999, date; Compras.CheckPurchaseAcceptsIff states what it accepts |
| Compras.CheckPurchaseAcceptsIff | src/app/components/dashboard/pages/compras/compras.ts:112-128 | the purchase form is accepted exactly when it has a product, a quantity in 1..999.999, a cost in 1..99.999.999 and a date; the body then carries those values |
| Compras.MaskedValuesWithinRange | src/app/components/dashboard/pages/compras/compras.ts:80-96 | the six- and eight-digit masks can never produce a quantity or cost above the maximum the check allows |
| Compras.PurchaseScreen.constructor | src/app/components/dashboard/pages/compras/compras.ts:54-61 | the date starts at today's date, everything else empty |
| Compras.PurchaseScreen.ShowOk | src/app/components/dashboard/pages/compras/compras.ts:75 | shows only the success message |
| Compras.PurchaseScreen.ShowError | src/app/components/dashboard/pages/compras/compras.ts:76 | sets the error message and clears the success message, leaving the inline message as it was |
| Compras.PurchaseScreen.ShowInline | src/app/components/dashboard/pages/compras/compras.ts:77 | shows only the inline message |
| Compras.PurchaseScreen.OnInputMasked | src/app/components/dashboard/pages/compras/compras.ts:80-96 | the display becomes the masked digits and the quantity or cost control the unmasked value |
| Compras.PurchaseScreen.Submit | src/app/components/dashboard/pages/compras/compras.ts:112-158 | does nothing while saving; a failed check shows its message inline; otherwise starts saving and sends the body as a create, or as an update of the purchase being edited |
| Compras.PurchaseScreen.Editar | src/app/components/dashboard/pages/compras/compras.ts:159-176 | enters edit mode, loads the purchase (its date converted, today's date when it does not convert) and shows its numbers masked |
| Compras.PurchaseScreen.ConfirmarEliminar | src/app/components/dashboard/pages/compras/compras.ts:182-185 | opens the confirmation with that purchase pending |
| Compras.PurchaseScreen.CloseConfirm | src/app/components/dashboard/pages/compras/compras.ts:186-189 | closes the confirmation |
| Compras.PurchaseScreen.DoEliminarConfirmado | src/app/components/dashboard/pages/compras/compras.ts:190-206 | closes the confirmation and deletes exactly the pending purchase, if any |
| Compras.PurchaseScreen.ResetForm | src/app/components/dashboard/pages/compras/compras.ts:225-236 | leaves edit mode with an empty form dated today |
| Alerts.KeyTextInjective | src/app/shared/services/alerts.service.ts:55-79 | distinct alert keys have distinct `MIN:<id>` / `MAX:<id>` texts |
| Alerts.AlertFor | src/app/shared/services/alerts.service.ts:55-79 | an alert raised for a key carries that key and the product's id |
| Alerts.Latest | src/app/shared/services/alerts.service.ts:48-79 | the reference meaning of the loop: the alert under a key is the one raised by the last product that raises one |
| Alerts.LatestSomeIff | src/app/shared/services/alerts.service.ts:48-80 | a key ends up in the map exactly when some product raises an alert under it |
| Alerts.LatestIsLastMatch | src/app/shared/services/alerts.service.ts:48-80 | the alert under a key is the one raised by the last product that raises it |
| Alerts.AlertExistsIff | src/app/shared/services/alerts.service.ts:55-79 | there is a MIN alert for a product id exactly when a product with that id is below its minimum, and a MAX alert exactly when one is above its maximum |
| Alerts.LatestMeta | src/app/shared/services/alerts.service.ts:57-76 | the alert's code, title, product id and meta (min or max, actual, name) are those of the product that raised it |
| Alerts.Lookup | src/app/shared/services/alerts.service.ts:46 | `uniq.get(k)`: a found entry is in the map and has key `k` |
| Alerts.Put | src/app/shared/services/alerts.service.ts:57-65 | `uniq.set(key, item)`: the result holds the new item and otherwise only entries of the old map (an existing key is replaced where it stands) |
| Alerts.PutLookup | src/app/shared/services/alerts.service.ts:55-79 | `Map.set` keeps keys unique, and afterwards the key set maps to the new alert while every other key keeps its value |
| Alerts.Insert | src/app/shared/services/alerts.service.ts:82 | one step of the stable sort: the result has one more element, and its elements are exactly the old ones and the inserted one |
| Alerts.SortById | src/app/shared/services/alerts.service.ts:82 | `sort((a, b) => a.producto_id - b.producto_id)`: the same number of alerts; Alerts.SortSorted, Alerts.SortMembers and Alerts.SortWithId prove it ordered, a permutation and stable |
| Alerts.InsertSorted | src/app/shared/services/alerts.service.ts:82 | inserting into a list sorted by product id keeps it sorted |
| Alerts.SortWithId | src/app/shared/services/alerts.service.ts:82 | the sort is stable: alerts with the same product id keep their relative order |
| Alerts.SortSorted | src/app/shared/services/alerts.service.ts:82 | the result of the sort is ordered by product id |
| Alerts.SortMembers | src/app/shared/services/alerts.service.ts:82 | the sort keeps exactly the same alerts |
| Alerts.SortUnique | src/app/shared/services/alerts.service.ts:82 | the sort keeps keys unique |
| Alerts.AtMostTwoPerId | src/app/shared/services/alerts.service.ts:45-83 | no product id has more than two alerts |
| Alerts.BuildAlertsFromProducts | src/app/shared/services/alerts.service.ts:45-83 | the result is sorted by product id, has one alert per key, and holds exactly the alert of the last product raising each key: a MIN alert when stock is below the minimum, a MAX alert when it is above the maximum; at most two per product, each for a product in the input |
| Usuarios.EmailPatternIff | src/app/components/dashboard/pages/usuarios/usuarios.ts:65 | the e-mail check accepts exactly `local@name.tld` with non-empty parts free of spaces and `@`, and a top-level part of at least two characters |
| Usuarios.S | src/app/components/dashboard/pages/usuarios/usuarios.ts:118 | `S(v)`: the value trimmed |
| Usuarios.Normalized | src/app/components/dashboard/pages/usuarios/usuarios.ts:125-135 | the values `submit` checks: texts trimmed, names single-spaced, the e-mail lowercased, the password as typed; Usuarios.NormalizedShape states the shape |
| Usuarios.NormalizedShape | src/app/components/dashboard/pages/usuarios/usuarios.ts:125-135 | after normalisation the names are trimmed and single-spaced, type, id and e-mail are trimmed, the e-mail has no upper-case letters, and the password is untouched |
| Usuarios.CheckUser | src/app/components/dashboard/pages/usuarios/usuarios.ts:138-148 | `submit`'s ten checks in source order; Usuarios.CheckUserAcceptsIff and Usuarios.PasswordOnlyOnCreate state what it accepts |
| Usuarios.CheckUserAcceptsIff | src/app/components/dashboard/pages/usuarios/usuarios.ts:138-148 | the user form is accepted exactly when it has a type, an id of letters, digits, dots and dashes, names in the name alphabet (second surname optional), a valid e-mail, a password of at least three characters when creating, a role and a profile |
| Usuarios.PasswordOnlyOnCreate | src/app/components/dashboard/pages/usuarios/usuarios.ts:145 | editing never reports a short password; creating reports it in the same position of the rule order |
| Usuarios.BodyOptionalFields | src/app/components/dashboard/pages/usuarios/usuarios.ts:154-165 | the second surname is sent only when non-empty; the password is always sent on create and on update only when typed |
| Usuarios.UserScreen.constructor | src/app/components/dashboard/pages/usuarios/usuarios.ts:46-78 | blank form, no messages, not saving or editing, confirmation closed |
| Usuarios.UserScreen.ShowInline | src/app/components/dashboard/pages/usuarios/usuarios.ts:91 | shows only the inline message |
| Usuarios.UserScreen.Submit | src/app/components/dashboard/pages/usuarios/usuarios.ts:121-186 | does nothing while saving; a failed check on the normalised form shows its message inline; otherwise starts saving and sends the body as a create, or as an update keyed by the edited user's type and id |
| Usuarios.UserScreen.Editar | src/app/components/dashboard/pages/usuarios/usuarios.ts:187-205 | enters edit mode keyed by the user's type and id and loads the user with an empty password |
| Usuarios.UserScreen.ConfirmarEliminar | src/app/components/dashboard/pages/usuarios/usuarios.ts:210-216 | opens the confirmation for that user's key |
| Usuarios.UserScreen.CloseConfirm | src/app/components/dashboard/pages/usuarios/usuarios.ts:217-221 | closes the confirmation and clears what it held |
| Usuarios.UserScreen.DoEliminarConfirmado | src/app/components/dashboard/pages/usuarios/usuarios.ts:222-235 | closes the confirmation and deletes exactly the pending user, if any |
| Usuarios.UserScreen.ResetForm | src/app/components/dashboard/pages/usuarios/usuarios.ts:236-250 | leaves edit mode with a blank form |
| NameRules.CheckNamedAcceptsIff | src/app/components/dashboard/pages/unidades-medidas/unidades-medidas.ts:99-106 | a name/description form is accepted exactly when the name is in the name alphabet and both texts are within their limits; the empty name is the first error reported |
| Unidades.TruncatedWithinLimits | src/app/components/dashboard/pages/unidades-medidas/unidades-medidas.ts:70-106 | text cut at the input limits can never fail the length checks |
| Unidades.BodyOf | src/app/components/dashboard/pages/unidades-medidas/unidades-medidas.ts:111-114 | the name sent is normalised; the description is sent only when not blank, normalised |
| Unidades.ConflictMessage | src/app/components/dashboard/pages/unidades-medidas/unidades-medidas.ts:180-188 | the refusal text: the product count (`?? 0`), the instruction, the bullet list, and the total whenever the list was cut; Unidades.ConflictMessageShape states its start and end |
| Unidades.ConflictMessageShape | src/app/components/dashboard/pages/unidades-medidas/unidades-medidas.ts:180-188 | the refusal message starts with how many products use the unit and ends with the "more products" note when the list was truncated |
| Unidades.OtherErrorText | src/app/components/dashboard/pages/unidades-medidas/unidades-medidas.ts:194 | any other failure shows the server's message, or "Error al eliminar." when it has none |
| Unidades.RefusalDialog | src/app/components/dashboard/pages/unidades-medidas/unidades-medidas.ts:178-191 | the refusal opens the dialog with the conflict message and no confirm action |
| Unidades.UnitScreen.constructor | src/app/components/dashboard/pages/unidades-medidas/unidades-medidas.ts:31-56 | blank form, no messages, not saving or editing, dialog closed |
| Unidades.UnitScreen.OnNombreInput | src/app/components/dashboard/pages/unidades-medidas/unidades-medidas.ts:70-78 | a name longer than 100 is cut to its first 100 characters (and only then written back); the name error is cleared |
| Unidades.UnitScreen.OnDescInput | src/app/components/dashboard/pages/unidades-medidas/unidades-medidas.ts:79-86 | a description longer than 150 is cut to its first 150 characters (and only then written back) |
| Unidades.UnitScreen.Submit | src/app/components/dashboard/pages/unidades-medidas/unidades-medidas.ts:96-134 | does nothing while saving; a failed check on the normalised texts shows its message inline; otherwise starts saving and sends the body as a create, or as an update when a unit with a non-zero code is being edited |
| Unidades.UnitScreen.Editar | src/app/components/dashboard/pages/unidades-medidas/unidades-medidas.ts:135-144 | enters edit mode for the unit and loads its texts |
| Unidades.UnitScreen.ConfirmarEliminar | src/app/components/dashboard/pages/unidades-medidas/unidades-medidas.ts:149-155 | opens the dialog whose confirm action deletes that unit |
| Unidades.UnitScreen.CloseConfirm | src/app/components/dashboard/pages/unidades-medidas/unidades-medidas.ts:156-161 | closes the dialog |
| Unidades.UnitScreen.EliminarUnidad | src/app/components/dashboard/pages/unidades-medidas/unidades-medidas.ts:168-173 | a zero id is refused with "ID inválido."; any other id sends the delete |
| Unidades.UnitScreen.DoConfirm | src/app/components/dashboard/pages/unidades-medidas/unidades-medidas.ts:162-167 | closes the dialog and runs its pending action |
| Unidades.UnitScreen.OnDeleteError | src/app/components/dashboard/pages/unidades-medidas/unidades-medidas.ts:177-195 | a 409 asking to update products opens the refusal dialog; any other failure shows the error text |
| Unidades.UnitScreen.ResetForm | src/app/components/dashboard/pages/unidades-medidas/unidades-medidas.ts:198-203 | leaves edit mode with a blank form and no name error |
| Roles.IsProtected | src/app/components/dashboard/pages/roles/roles.ts:71-73 | `isProtected(r)`: the role's canonical name is 'administrador'; Canon.RoleCanonicalOfWord and Canon.RoleCanonicalIgnoresSpaces say which names that covers |
| Roles.CheckRole | src/app/components/dashboard/pages/roles/roles.ts:88-94 | `submit`'s checks on the normalised texts: non-empty name, name pattern, 50 and 200 characters; NameRules.CheckNamedAcceptsIff states what it accepts |
| Roles.BodyOfShape | src/app/components/dashboard/pages/roles/roles.ts:88-97 | the name and description sent are trimmed and single-spaced; the description is empty only when blank |
| Roles.EditedBodyKeepsTexts | src/app/components/dashboard/pages/roles/roles.ts:117-129 | editing a role with well-spaced texts and saving it unchanged sends its own texts |
| Roles.FindRow | src/app/components/dashboard/pages/roles/roles.ts:148-149 | finds the first role with that id, or none when no role has it |
| Roles.FindRowFirst | src/app/components/dashboard/pages/roles/roles.ts:148-149 | the first role with an id is the one found for it |
| Roles.RoleScreen.constructor | src/app/components/dashboard/pages/roles/roles.ts:30-52 | the given rows, empty form, no messages, not saving or editing, confirmation closed |
| Roles.RoleScreen.Submit | src/app/components/dashboard/pages/roles/roles.ts:85-116 | does nothing while saving; a failed check on the normalised texts shows its message inline; otherwise starts saving and sends the body as a create, or as an update of the role being edited |
| Roles.RoleScreen.Editar | src/app/components/dashboard/pages/roles/roles.ts:117-129 | a protected role is not loaded; any other enters edit mode with its texts |
| Roles.RoleScreen.ConfirmarEliminar | src/app/components/dashboard/pages/roles/roles.ts:134-137 | opens the confirmation with that role pending |
| Roles.RoleScreen.CloseConfirm | src/app/components/dashboard/pages/roles/roles.ts:138-141 | closes the confirmation |
| Roles.RoleScreen.DoEliminarConfirmado | src/app/components/dashboard/pages/roles/roles.ts:142-162 | closes the confirmation; no delete goes out exactly when the pending role is found and protected, otherwise the pending role is deleted |
| Roles.RoleScreen.ResetForm | src/app/components/dashboard/pages/roles/roles.ts:164-171 | leaves edit mode with an empty form |
| Canon.StripAccents | src/app/components/dashboard/pages/roles/roles.ts:68 | `normalize('NFD').replace(/[\u0300-\u036f]/g, '')`: combining marks dropped and precomposed Latin-1 letters reduced to their base letter, never lengthening the text; Canon.StripAccentsConcat proves it works character by character |
| Canon.StripAccentsConcat | src/app/components/dashboard/pages/roles/roles.ts:66-69 | accent stripping works character by character |
| Canon.FoldedIsLowerOfStripped | src/app/components/dashboard/pages/roles/roles.ts:66-69 | folding each character equals stripping accents and then lower-casing |
| Canon.FoldAlike | src/app/components/dashboard/pages/roles/roles.ts:66-74 | names that differ only in case or in the accent on a letter have the same canonical forms |
| Canon.RoleCanonical | src/app/components/dashboard/pages/roles/roles.ts:66-69 | the role canonical form contains no whitespace |
| Canon.IsProtectedRole | src/app/components/dashboard/pages/roles/roles.ts:71-73 | a role name is protected when its canonical form is 'administrador'; Canon.RoleCanonicalIgnoresSpaces and Canon.RoleCanonicalOfWord say which names those are |
| Canon.RoleCanonicalIgnoresSpaces | src/app/components/dashboard/pages/roles/roles.ts:66-74 | inserting whitespace anywhere in a role name changes neither its canonical form nor whether it is protected |
| Canon.RoleCanonicalOfWord | src/app/components/dashboard/pages/roles/roles.ts:66-74 | a role that folds to one lower-case word has that word as canonical form, so it is protected exactly when the word is "administrador" |
| Canon.ProfileCanonical | src/app/components/dashboard/pages/perfiles/perfiles.ts:75-79 | the profiles screen's `toCanonical`: accents stripped, lowercased, whitespace runs collapsed, trimmed; Canon.ProfileCanonicalOfWellSpaced and Canon.ProfileCanonicalOfTwoWords compute it on the names that matter |
| Canon.ProfileCanonicalOfWellSpaced | src/app/components/dashboard/pages/perfiles/perfiles.ts:75-79 | a profile name already folded and well spaced is its own canonical form |
| Canon.ProfileCanonicalOfTwoWords | src/app/components/dashboard/pages/perfiles/perfiles.ts:75-83 | a profile that folds to two lower-case words has them, one space apart, as canonical form, so it is protected exactly when they are "administrador supremo" |
| Perfiles.IsProtected | src/app/components/dashboard/pages/perfiles/perfiles.ts:80-82 | `isProtected(p)`: the profile's canonical name is 'administrador supremo'; Canon.ProfileCanonicalOfTwoWords says which names those are |
| Perfiles.LettersPatternIsNamePattern | src/app/components/dashboard/pages/perfiles/perfiles.ts:109 | the letters-only profile pattern is narrower than the general name pattern |
| Perfiles.RolNumber | src/app/components/dashboard/pages/perfiles/perfiles.ts:112-115 | a role is read as a number only from a digit string of positive value |
| Perfiles.RolNumberOfEdited | src/app/components/dashboard/pages/perfiles/perfiles.ts:152-165 | a stored role id put back in the form is read back as itself exactly when positive |
| Perfiles.CheckProfile | src/app/components/dashboard/pages/perfiles/perfiles.ts:103-117 | `submit`'s checks in source order: name, letters pattern, 100 characters, role chosen, role a positive integer, 255 characters; Perfiles.CheckProfileAcceptsIff states what it accepts |
| Perfiles.CheckProfileAcceptsIff | src/app/components/dashboard/pages/perfiles/perfiles.ts:103-117 | the profile form is accepted exactly when the name is letters and spaces within 100 characters, the role is a positive number and the description is within 255; a missing role is reported exactly when the name passed |
| Perfiles.BodyOf | src/app/components/dashboard/pages/perfiles/perfiles.ts:124-128 | an accepted form sends a normalised letters-only name, a description within the limit and the positive role read from the form |
| Perfiles.DeleteErrorMessage | src/app/components/dashboard/pages/perfiles/perfiles.ts:191-203 | the server's message wins; otherwise a 409 maps PROFILE_PROTECTED and PROFILE_IN_USE to their messages, and everything else to the generic one |
| Perfiles.ProfileScreen.constructor | src/app/components/dashboard/pages/perfiles/perfiles.ts:35-56 | empty form, no messages, not saving or editing, confirmation closed |
| Perfiles.ProfileScreen.Submit | src/app/components/dashboard/pages/perfiles/perfiles.ts:99-151 | does nothing while saving; a failed check shows its message inline; otherwise starts saving and sends the body as a create, or as an update keyed by the edited profile's id and role |
| Perfiles.ProfileScreen.Editar | src/app/components/dashboard/pages/perfiles/perfiles.ts:152-165 | a protected profile is not loaded; any other enters edit mode keyed by its id and role, its role shown as text |
| Perfiles.ProfileScreen.ConfirmarEliminar | src/app/components/dashboard/pages/perfiles/perfiles.ts:170-175 | a protected profile is not offered for deletion; any other becomes pending |
| Perfiles.ProfileScreen.CloseConfirm | src/app/components/dashboard/pages/perfiles/perfiles.ts:176-180 | closes the confirmation |
| Perfiles.ProfileScreen.DoEliminarConfirmado | src/app/components/dashboard/pages/perfiles/perfiles.ts:181-190 | closes the confirmation and deletes exactly the pending profile, if any |
| Perfiles.ProfileScreen.OnDeleteError | src/app/components/dashboard/pages/perfiles/perfiles.ts:191-205 | shows the mapped delete error |
| Perfiles.ProfileScreen.ResetForm | src/app/components/dashboard/pages/perfiles/perfiles.ts:207-212 | leaves edit mode with an empty form |
| Categorias.BodyOfShape | src/app/components/dashboard/pages/categorias/categorias.ts:76-77 | the name and description sent are trimmed and single-spaced |
| Categorias.DeleteErrorMessage | src/app/components/dashboard/pages/categorias/categorias.ts:140-185 | a 409 asking to update products shows the conflict message; any other failure the server's message or the generic one |
| Categorias.ConflictMessage | src/app/components/dashboard/pages/categorias/categorias.ts:164-176 | the 409 text: the server's message or the default, a blank line, the bullet list, and the total when the list was cut and the total is truthy; Categorias.ConflictMessageLines reads it back line by line |
| Categorias.ConflictMessageLines | src/app/components/dashboard/pages/categorias/categorias.ts:155-182 | when neither the server message nor a product name holds a line break, the conflict message reads line by line as the base text, a blank line, one bullet per product (a single empty line when there are none), and (when truncated with a known non-zero total) a blank line and the "more products" note |
| Categorias.SplitWithTail | src/app/components/dashboard/pages/categorias/categorias.ts:155-182 | joining lines with a blank line and a last line, then splitting, gives the lines back |
| Categorias.CategoryScreen.constructor | src/app/components/dashboard/pages/categorias/categorias.ts:20-39 | empty form, no messages, not saving or editing, confirmation closed |
| Categorias.CategoryScreen.ShowOk | src/app/components/dashboard/pages/categorias/categorias.ts:51-55 | shows only the success message |
| Categorias.CategoryScreen.ShowError | src/app/components/dashboard/pages/categorias/categorias.ts:56-61 | shows only the error message |
| Categorias.CategoryScreen.Submit | src/app/components/dashboard/pages/categorias/categorias.ts:72-112 | does nothing while saving; a failed check on the normalised texts shows its message; otherwise starts saving and sends the body as a create, or as an update of the category being edited |
| Categorias.CategoryScreen.Editar | src/app/components/dashboard/pages/categorias/categorias.ts:113-122 | enters edit mode for the category and loads its texts |
| Categorias.CategoryScreen.CancelarEdicion | src/app/components/dashboard/pages/categorias/categorias.ts:123-129 | leaves edit mode with an empty form |
| Categorias.CategoryScreen.ConfirmarEliminar | src/app/components/dashboard/pages/categorias/categorias.ts:130-134 | opens the confirmation with that category pending |
| Categorias.CategoryScreen.CloseConfirm | src/app/components/dashboard/pages/categorias/categorias.ts:135-139 | closes the confirmation |
| Categorias.CategoryScreen.DoEliminarConfirmado | src/app/components/dashboard/pages/categorias/categorias.ts:140-154 | closes the confirmation and deletes exactly the pending category, if any |
| Categorias.CategoryScreen.OnDeleteError | src/app/components/dashboard/pages/categorias/categorias.ts:140-185 | shows the mapped delete error |
| Tipos.CollapseKeepsNameChars | src/app/components/dashboard/pages/tipos-identificaciones/tipos-identificaciones.ts:113-115 | collapsing whitespace neither adds nor removes characters outside the name alphabet |
| Tipos.PrecheckAgreesWithSubmit | src/app/components/dashboard/pages/tipos-identificaciones/tipos-identificaciones.ts:89-115 | the duplicate pre-check (trim only) and submit (trim and collapse) agree on emptiness and on the name pattern |
| Tipos.CheckType | src/app/components/dashboard/pages/tipos-identificaciones/tipos-identificaciones.ts:113-115 | the description is accepted exactly when it matches the name pattern; the empty one is reported as missing |
| Tipos.ConflictDetail | src/app/components/dashboard/pages/tipos-identificaciones/tipos-identificaciones.ts:190-195 | `partes.join(' y ') || 'registros relacionados'` over the positive counts; Tipos.ConflictDetailCases gives its four cases |
| Tipos.ConflictDetailCases | src/app/components/dashboard/pages/tipos-identificaciones/tipos-identificaciones.ts:189-203 | lists users and sales only when their counts are positive, "registros relacionados" when neither is |
| Tipos.ConflictMessage | src/app/components/dashboard/pages/tipos-identificaciones/tipos-identificaciones.ts:198-200 | the question of the refusal dialog: what uses the type, then the offer to deactivate it |
| Tipos.TypeScreen.constructor | src/app/components/dashboard/pages/tipos-identificaciones/tipos-identificaciones.ts:25-49 | empty form, no messages or errors, not saving or editing, dialog closed |
| Tipos.TypeScreen.OnDescripcionInput | src/app/components/dashboard/pages/tipos-identificaciones/tipos-identificaciones.ts:70-78 | a description longer than 100 is cut to 100 characters (and only then written back); the error is cleared |
| Tipos.TypeScreen.CheckDuplicado | src/app/components/dashboard/pages/tipos-identificaciones/tipos-identificaciones.ts:89-108 | a blank description or one outside the pattern sets its error and queries nothing; otherwise asks whether the trimmed description exists, excluding the record being edited |
| Tipos.TypeScreen.ApplyDuplicateAnswer | src/app/components/dashboard/pages/tipos-identificaciones/tipos-identificaciones.ts:99-107 | a positive answer sets the duplicate error, a negative one clears it |
| Tipos.TypeScreen.Submit | src/app/components/dashboard/pages/tipos-identificaciones/tipos-identificaciones.ts:110-137 | does nothing while saving; a failed check shows its message inline; a pending duplicate error blocks; otherwise starts saving and sends the normalised description as a create or an update |
| Tipos.TypeScreen.Editar | src/app/components/dashboard/pages/tipos-identificaciones/tipos-identificaciones.ts:139-145 | enters edit mode for the record and loads its description |
| Tipos.TypeScreen.ConfirmarEliminar | src/app/components/dashboard/pages/tipos-identificaciones/tipos-identificaciones.ts:151-159 | opens the dialog whose confirm action deletes that record |
| Tipos.TypeScreen.ConfirmarActivar | src/app/components/dashboard/pages/tipos-identificaciones/tipos-identificaciones.ts:161-166 | opens the dialog whose confirm action activates that record |
| Tipos.TypeScreen.CloseConfirm | src/app/components/dashboard/pages/tipos-identificaciones/tipos-identificaciones.ts:168-173 | closes the dialog |
| Tipos.TypeScreen.DoConfirm | src/app/components/dashboard/pages/tipos-identificaciones/tipos-identificaciones.ts:174-178 | closes the dialog and runs its pending action |
| Tipos.TypeScreen.OnDeleteError | src/app/components/dashboard/pages/tipos-identificaciones/tipos-identificaciones.ts:189-210 | a 409 asking for deactivation opens the dialog offering to deactivate; any other failure shows the server's message or the default |
| Tipos.TypeScreen.ResetForm | src/app/components/dashboard/pages/tipos-identificaciones/tipos-identificaciones.ts:238-243 | leaves edit mode with an empty form and no error |
| Permisos.FlagValue | src/app/components/dashboard/pages/permisos/permisos.ts:115-118 | a checkbox maps to 'S' exactly when checked |
| Permisos.ParseIntToString | src/app/components/dashboard/pages/permisos/permisos.ts:90-93 | the decimal text of an integer parses back to it |
| Permisos.ParsePerfil | src/app/components/dashboard/pages/permisos/permisos.ts:130-135 | a profile option value parses only when it is exactly the text produced for that pair |
| Permisos.ParsePerfilJson | src/app/components/dashboard/pages/permisos/permisos.ts:90-93 | the option value produced for a profile parses back to its id and role |
| Permisos.PerfilJsonInjective | src/app/components/dashboard/pages/permisos/permisos.ts:90-93 | distinct profiles produce distinct option values |
| Permisos.CheckPermiso | src/app/components/dashboard/pages/permisos/permisos.ts:124-157 | each error is reported exactly under its condition in order (no profile, no form, bad profile id, bad role, bad form code); otherwise the body carries the parsed profile and one entry with the form code and the four flags |
| Permisos.SelectedOptionsAccepted | src/app/components/dashboard/pages/permisos/permisos.ts:90-157 | choosing a listed profile and a listed form is always accepted, with exactly their values in the body |
| Permisos.PermisoScreen.constructor | src/app/components/dashboard/pages/permisos/permisos.ts:48-67 | empty selections, flags 'N', no messages, not saving |
| Permisos.PermisoScreen.Toggle | src/app/components/dashboard/pages/permisos/permisos.ts:115-118 | sets exactly that flag from the checkbox and leaves the others |
| Permisos.PermisoScreen.Submit | src/app/components/dashboard/pages/permisos/permisos.ts:120-162 | does nothing while saving; a failed check shows its message inline; otherwise starts saving and sends the body |
| Permisos.PermisoScreen.OnSaved | src/app/components/dashboard/pages/permisos/permisos.ts:165-170 | shows the server's message or the default success text, and resets the form |
| Permisos.PermisoScreen.OnSaveError | src/app/components/dashboard/pages/permisos/permisos.ts:171-173 | shows the server's message or the default error text; `saving` is left as it was |
| Permisos.PermisoScreen.OnComplete | src/app/components/dashboard/pages/permisos/permisos.ts:174-176 | saving ends |
| Permisos.PermisoScreen.SubmitAfterFailedSave | src/app/components/dashboard/pages/permisos/permisos.ts:121-176 | after a failed post (error callback, no completion) `saving` stays on and the next submit sends nothing, whatever the form holds |
| Permisos.PermisoScreen.OnSaveErrorSettled | src/app/components/dashboard/pages/permisos/permisos.ts:171-176 | corrected error callback: the same error text, and `saving` ends as after completion |
| Permisos.PermisoScreen.SubmitAfterSettledFailure | src/app/components/dashboard/pages/permisos/permisos.ts:120-176 | after the corrected error callback the next submit sends the body exactly when the form passes its checks, and shows the check's message otherwise |
| Permisos.PermisoScreen.ResetForm | src/app/components/dashboard/pages/permisos/permisos.ts:180-189 | empty selections and flags 'N' |
| Auth.UrlToStd | src/app/shared/services/auth.service.ts:55-63 | maps `-` to `+` and `_` to `/`, position by position |
| Auth.UrlToStdLeavesNoUrlChars | src/app/shared/services/auth.service.ts:55-63 | the result holds no base64url-only characters |
| Auth.UrlToStdInverts | src/app/shared/services/auth.service.ts:55-63 | the mapping and its reverse undo each other on texts of the respective alphabets |
| Auth.DecodePayload | src/app/shared/services/auth.service.ts:55-63 | a token with fewer than two dot-separated parts has no payload; otherwise the second part is decoded |
| Auth.DecodeThreeSegments | src/app/shared/services/auth.service.ts:55-63 | a three-part token decodes its middle part |
| Auth.Authenticated | src/app/shared/services/auth.service.ts:36-43 | no token or an empty one is never authenticated; a token without expiry always is; otherwise exactly while now is before the expiry |
| Auth.ExpiryInSeconds | src/app/shared/services/auth.service.ts:36-43 | comparing the expiry with the floored seconds is the same as comparing milliseconds |
| Auth.AuthenticatedEarlier | src/app/shared/services/auth.service.ts:36-43 | a token authenticated at some time was authenticated at every earlier time |
| Auth.ExpiredAfterExp | src/app/shared/services/auth.service.ts:36-43 | from the expiry onwards the token is not authenticated |
| Auth.FormulariosFrom | src/app/shared/services/auth.service.ts:45-53 | the forms listed in the payload, or none without a token or payload |
| Auth.AuthService.constructor | src/app/shared/services/auth.service.ts:16-30 | the stored token is the initial one |
| Auth.AuthService.GetToken | src/app/shared/services/auth.service.ts:28-30 | returns the stored token |
| Auth.AuthService.SaveToken | src/app/shared/services/auth.service.ts:24-26 | afterwards the stored token is the one saved |
| Auth.AuthService.ClearSession | src/app/shared/services/auth.service.ts:32-34 | afterwards there is no token and the user is authenticated at no time |
| Auth.AuthService.IsAuthenticated | src/app/shared/services/auth.service.ts:36-43 | never authenticated without a stored token; otherwise as `Authenticated` |
| Auth.AuthService.GetFormulariosFromToken | src/app/shared/services/auth.service.ts:45-53 | no forms without a stored token; otherwise as `FormulariosFrom` |
| Auth.SavedWithoutExpiry | src/app/shared/services/auth.service.ts:24-43 | a saved token without expiry is authenticated at any time |
| Feedback.RunConfirm | src/app/components/dashboard/pages/tipos-identificaciones/tipos-identificaciones.ts:174-178 | confirming closes and clears the dialog and runs exactly its pending action, if any |
| Text.TrimFacts | src/app/components/dashboard/pages/roles/roles.ts:88 | `trim` yields the empty text exactly for a blank input, and otherwise neither end is whitespace |
| Text.CollapseSpaces | src/app/components/dashboard/pages/roles/roles.ts:88 | `replace(/\s+/g, ' ')` leaves no two whitespace characters together and no whitespace other than the space, keeps emptiness and which ends are whitespace |
| Text.Normalize | src/app/components/dashboard/pages/roles/roles.ts:88 | trim-and-collapse yields a trimmed single-spaced text, empty exactly for a blank input |
| Text.NormalizeKeepsText | src/app/components/dashboard/pages/roles/roles.ts:88 | normalising keeps every non-whitespace character, in order |
| Text.NormalizeIdempotent | src/app/components/dashboard/pages/roles/roles.ts:88 | normalising twice is normalising once |
| Text.NormalizeFixesWellSpaced | src/app/components/dashboard/pages/roles/roles.ts:88 | a trimmed single-spaced text is unchanged by normalising |
| Text.ToLower | src/app/components/dashboard/pages/usuarios/usuarios.ts:131 | lower-casing keeps the length, leaves no upper-case letter and keeps whitespace and digits where they were |
| Text.ToLowerIdempotent | src/app/components/dashboard/pages/usuarios/usuarios.ts:131 | lower-casing twice is lower-casing once |
| Text.SplitJoin | src/app/components/dashboard/pages/compras/compras.ts:238-243 | splitting on a separator the parts do not contain gives back the parts |
| Text.NatToString | src/app/components/dashboard/pages/compras/compras.ts:54-61 | the decimal text of a number is non-empty, all digits, has that value, and has no leading zero unless the number is 0 |
| Text.IntToStringInjective | src/app/shared/services/alerts.service.ts:55-79 | distinct integers have distinct decimal texts |
| Text.ParseNatToString | src/app/components/dashboard/pages/permisos/permisos.ts:137-143 | the decimal text of a number reads back as that number |
| Text.PadStart2 | src/app/components/dashboard/pages/compras/compras.ts:57-58 | `padStart(2, '0')` keeps the text as the suffix, pads with zeros to at least two characters |
| Text.PadStart2Value | src/app/components/dashboard/pages/compras/compras.ts:57-58 | padding a digit string does not change its value |

## Left out

- HTTP: every `load*` method, the service wrappers and the `subscribe` plumbing are not modelled; a handler that sends a request returns it as a value instead.
- Answers to requests: the success and error callbacks of the save and delete requests are not modelled, except the delete-error handling of units, categories, identification types and profiles, the remote duplicate answer of identification types and the save answers of permissions; they only show the server's message or a fixed text, reload the list and reset the form.
- Ventas.SaleForm.Submit: the server's stock-violation answers (`STOCK_NOT_ENOUGH`, `MIN_STOCK_BREACH`) and the violation panel with its timer are not modelled; they only display data the server reports.
- Timers and browser APIs: `autoHide`, `setTimeout`/`setInterval` polling, the `visibilitychange` listener, `window.scrollTo`, `console.warn` and `localStorage` (the token store is a field) are not modelled.
- The `beforeinput` guard: the `InputEvent` is given as its parts (value, selection start and end, data, input type) and `preventDefault` as the returned boolean.
- Alerts.BuildAlertsFromProducts: when one product has both a MIN and a MAX alert, the contract does not fix which of the two comes first; the source keeps the order in which their keys first entered the `Map`, because the sort by id is stable.
- Alerts.BuildAlertsFromProducts: the `ts: Date.now()` field and the `Number.isFinite` guards are left out, since the model's stock numbers are always finite integers.
- Auth.DecodePayload: `atob`, `decodeURIComponent(escape(...))` and `JSON.parse` are the `decode` parameter; only the segment selection and the base64url character mapping are modelled.
- Perfiles.RolNumber: reads the role only from a plain digit string; `Number()` on texts such as " 5", "5.0" or "1e1" is not modelled.
- Permisos.ParsePerfil: parses only the exact text `JSON.stringify` produces for the listed profiles; other JSON spellings of the same object are reported as an invalid profile.
- Permisos.CheckPermiso: the form code is read only from a plain digit string, like `Perfiles.RolNumber`.
- Canon.StripAccents: NFD decomposition is modelled for the precomposed Latin-1 letters only; other precomposed characters are kept as they are.
- Text.ToLower: lower-cases ASCII and Latin-1 letters only.
- Text lengths are counted in characters, while JavaScript counts UTF-16 code units; the two differ only for characters outside the Basic Multilingual Plane.
- Numbers are unbounded integers: floating point, `NaN` and non-integer prices are not modelled; every amount the checks accept is far below 2^53.
- The Angular `Validators` of the form definitions are not modelled; the explicit checks in `submit` are.
- The `canon` helper of the identification-types screen is not modelled: nothing in the screen calls it.
- Routing, the login guard, the HTTP interceptor and the UI-only components are not part of this model.

## Findings

| source | as written | input that shows it | evidently intended | confidence | as-written member | corrected member |
|---|---|---|---|---|---|---|
| src/app/components/dashboard/pages/permisos/permisos.ts:163-176 | `saving` is set back to false only in the `complete` callback of the post; an Observable that ends in `error` never calls `complete` | a permission post the server answers with an error (any 4xx or 5xx): afterwards `submit` returns at line 121 on every call, so the screen cannot save again until it is reloaded | `saving` ends after an error as well (a `finalize`, or `saving = false` in the error callback) | high for the behaviour, since RxJS calls either `error` or `complete`; not executed | Permisos.PermisoScreen.SubmitAfterFailedSave | Permisos.PermisoScreen.OnSaveErrorSettled, Permisos.PermisoScreen.SubmitAfterSettledFailure |

The save requests of roles (src/app/components/dashboard/pages/roles/roles.ts:103-114) and identification types (src/app/components/dashboard/pages/tipos-identificaciones/tipos-identificaciones.ts:125-136) clear `saving` the same way; their answers are not part of this model.
