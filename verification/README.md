# Order management: a Dafny model of its logic

This project models the logic of a small order-management web app for a
food business. Customers' orders carry a name, a WhatsApp phone, details,
pick-up or delivery, a delivery date and time, a total, a payment method and
a status. The model covers the following parts:

- **Phone formatting.** The phone formatter strips non-digits and applies the
  10- or 11-digit template (`PhoneFormat`).
- **Phone pattern.** The regular expression the live schemas apply to phones
  becomes a recognizer, next to an independent description of its language
  (`PhonePattern`).
- **Validation.** The validation library's object semantics (`Zod`) and the
  JavaScript values it sees (`Json`).
- **Order schemas.** Both versions of the order schemas (`OrderRules`,
  `OrderSchemas`):
  - the live one, with the phone pattern and a string total;
  - the one beside the API, which reduces the phone to its digits and takes a
    numeric total.
- **Data model.** The order type, its enumerations and the status colours
  (`OrderTypes`).
- **`/api/orders`.** `POST` and `GET` over an order store held by a class
  (`OrdersRoute`).
- **`/api/orders/filter`.** The filter route (`FilterRoute`).
- **New-order form in use.** Its defaults, the currency format the amount
  field rewrites itself into on every keystroke, the money-amount
  normalisation and the submit handler (`NewOrderClient`).
- **Older new-order page.** Its own schema, its three-step money rewrite and
  its submit handler (`NewOrderPage`).
- **Order list page.** The replace-by-id list updates and the filter
  (`OrdersPage`).

Some inputs are parameters rather than modelled, and each comes back as an
argument:

- whether there is a session;
- whether the request body decodes;
- whether the date parser accepts a text;
- the store's identifiers, timestamps and failures;
- the store's answer to the filter query that has parameters but no term;
- whether the order service resolves;
- the order the service returns.

## Model

| member | source | states |
|---|---|---|
| PhoneFormat.FormatPhoneNumberCases | utils/formatPhoneNumber.ts:2-5 | After the non-digits are removed, 11 digits take the template "(d1d2) d3 d4d5d6d7-d8d9d10d11" and 10 digits take "(d1d2) d3d4d5d6-d7d8d9d10". Any other count is returned as the bare digits. The 10-digit rule never rewrites the 11-digit template's output. |
| PhoneFormat.FormatPhoneNumberLength | utils/formatPhoneNumber.ts:3-5 | An 11-digit number formats to 16 characters and a 10-digit one to 14. Any other count gives the bare digit string. |
| PhoneFormat.Template11Digits | utils/formatPhoneNumber.ts:4 | Deleting the non-digits from the 11-digit template gives back its 11 digits. |
| PhoneFormat.Template10Digits | utils/formatPhoneNumber.ts:5 | Deleting the non-digits from the 10-digit template gives back its 10 digits. |
| PhoneFormat.FormatPhoneNumberKeepsDigits | utils/formatPhoneNumber.ts:3-5 | Round trip: the formatted phone has exactly the digits of the input. |
| PhoneFormat.FormatPhoneNumberIdempotent | utils/formatPhoneNumber.ts:2-5 | Formatting an already formatted phone returns it unchanged. |
| PhonePattern.MatchesRender | schemas/orderSchemas.ts:9-11 | The recognizer accepts every string built in the pattern's order: optional "(", two digits, optional ")", optional whitespace, optional "9", optional whitespace, four digits, optional "-", four digits. |
| PhonePattern.Parse | schemas/orderSchemas.ts:9-11 | Every string the recognizer accepts splits into such parts, and the parts spell it again. So the recognizer accepts exactly the pattern's language. |
| PhonePattern.DigitsOfRender | schemas/orderSchemas.ts:9-11 | The digits of an accepted phone are the area code, the optional 9, then the two groups of four. |
| PhonePattern.MatchesDigitCount | schemas/orderSchemas.ts:9-11 | Every accepted phone has exactly 10 or 11 digits. |
| PhonePattern.UnbalancedParenthesesMatch | schemas/orderSchemas.ts:9 | "(" and ")" are optional independently, so a phone with only one of them is accepted. |
| PhonePattern.MaskedMobileMatches | app/pedidos/novo/pageClient.tsx:107 | The mask "(99) 9 9999-9999" produces a phone that the pattern accepts when its third digit is 9. |
| PhonePattern.MaskedOtherDigitRejected | app/pedidos/novo/pageClient.tsx:107 | The mask admits any digit in the third place, but the pattern then rejects what it produces. |
| Zod.Primitive | schemas/orderSchemas.ts:6-29 | `z.string()`, `z.number()` or `z.boolean()`, optionally `.optional()`. There is no issue exactly when the value has the type, or is absent and optional. An absent required value gets the schema's required message. An issue aborts the object. The value passes through. |
| Zod.DateField | schemas/orderSchemas.ts:17-19 | `z.date()`: there is no issue exactly for a valid `Date`, or an absent value when optional. An invalid `Date` gets the library's "Invalid date" message, and an absent required one the schema's required message. An issue aborts the object. |
| Zod.EnumField | schemas/orderSchemas.ts:15-26 | `z.enum` / `z.nativeEnum`: there is no issue exactly for a listed string, or an absent value when optional. |
| Zod.Check | schemas/orderSchemas.ts:6-11 | `.min` / `.regex` / `.refine` add their message when the parsed string fails. They never abort and never change the value. |
| Zod.MinLength | schemas/orderSchemas.ts:6-8 | `.min(n)` adds its message exactly when the parsed string is shorter than n. |
| Zod.Transform | app/api/schemas/orderSchemas.ts:11 | `.transform` replaces a parsed string and keeps the issues. |
| Zod.ObjectIssuesEmpty | schemas/orderSchemas.ts:4-39 | An object schema reports nothing exactly when every key passes and the refinement adds nothing. |
| Zod.ObjectIssuesAt | schemas/orderSchemas.ts:4-39 | The issues at a key are that key's own, when the refinement says nothing about it. |
| Zod.NotKeyIssue | schemas/orderSchemas.ts:4-39 | An issue at a key that the key's own schema did not raise is not among the keys' issues. |
| Zod.UnkeyedNotKeyIssue | schemas/orderSchemas.ts:111-116 | An issue without a path, as the cancellation refinement raises, is never one of the keys' issues. |
| Zod.RefinementIssue | schemas/orderSchemas.ts:31-39 | When no key aborted, an issue no key raised is reported exactly when the refinement raises it. |
| OrderRules.DeliveryRule | schemas/orderSchemas.ts:31-39 | The refinement adds at most the single issue "O endereço de entrega é obrigatório" at `deliveryAddress`. |
| OrderRules.CancelRule | schemas/orderSchemas.ts:111-116 | The refinement adds at most the single path-less issue "O motivo do cancelamento é obrigatório". |
| OrderRules.DeliveryRuleRaises | schemas/orderSchemas.ts:31-39 | The address issue is raised exactly for "entrega" without a truthy address. |
| OrderRules.IssuesAtUnderDeliveryRule | schemas/orderSchemas.ts:31-39 | Under the address refinement, the issues at any key but the address are that key's schema's own. |
| OrderRules.UpdateRulesRaise | schemas/orderSchemas.ts:103-116 | With both update refinements, the address issue is raised exactly for "entrega" without a truthy address, and the cancellation issue exactly for "Cancelado" without a truthy reason. |
| OrderRules.GetByIdIssues | schemas/orderSchemas.ts:41-45 | `getOrderByIdSchema` passes exactly when `id` is a string. |
| OrderRules.FilterIssues | schemas/orderSchemas.ts:119-121 | `filterOrderSchema` passes exactly when `term` is a string or absent. |
| OrderRules.GetByIdAcceptsEmpty | app/api/schemas/orderSchemas.ts:43-47 | The empty id passes. A missing id gets "O ID do pedido é obrigatório.". |
| OrderSchemas.PhoneField | app/api/schemas/orderSchemas.ts:9-14 | A string phone is accepted by the pattern (live) or when it has 10 to 11 digits (API). The parsed phone is the string as typed (live) or its digits (API). |
| OrderSchemas.SafeParseCreate | schemas/orderSchemas.ts:4-39 | `createOrderSchema.safeParse` succeeds exactly when it reports no issue. |
| OrderSchemas.SafeParseCreateSpec | schemas/orderSchemas.ts:4-39 | Create succeeds exactly when every key is valid and no delivery lacks an address. Validity means: name of at least 3 characters, an accepted phone, details of at least 10, "retirada"/"entrega", a string or absent address, a valid date, a string time, a total of the version's type, one of the four payment tags and a string user id. The parsed value is the payload with its phone parsed and the keys outside the shape dropped. |
| OrderSchemas.CreateKeysPass | app/api/schemas/orderSchemas.ts:4-32 | Every create key passes exactly when the key-by-key validity holds, in both versions. |
| OrderSchemas.CreateIssuesAt | app/api/schemas/orderSchemas.ts:4-32 | The issues at any create key other than the address are that key's schema's own. |
| OrderSchemas.CreateIssuesAtKey | app/api/schemas/orderSchemas.ts:4-32 | The same, named by the key rather than its position. |
| OrderSchemas.CreatePhoneRule | app/api/schemas/orderSchemas.ts:9-14 | The phone is reported exactly when it is not a string the version accepts. A string phone gets "Número de WhatsApp inválido.". |
| OrderSchemas.CreateNameRule | app/api/schemas/orderSchemas.ts:6-8 | The name is reported exactly when it is not a string of at least 3 characters. A short one gets "Nome deve ter pelo menos 3 caracteres.". |
| OrderSchemas.CreateDetailsRule | app/api/schemas/orderSchemas.ts:15-17 | The details are reported exactly when they are not a string of at least 10 characters, with their message. |
| OrderSchemas.CreateOrderValueRule | schemas/orderSchemas.ts:23-25 | The total is reported exactly when it is not a string (live) or a number (API). A missing one gets "O valor total é obrigatório." (live) or "Required" (API). |
| OrderSchemas.CreateAddressRule | app/api/schemas/orderSchemas.ts:33-40 | When no key aborted, the address issue is reported exactly for "entrega" with an absent or empty address. "retirada" never gets it. |
| OrderSchemas.SafeParseUpdate | schemas/orderSchemas.ts:55-117 | `updateOrderSchema.safeParse` succeeds exactly when it reports no issue. |
| OrderSchemas.SafeParseUpdateSpec | app/api/schemas/orderSchemas.ts:57-116 | Update succeeds exactly when three things hold: every present key is valid, "entrega" comes with a truthy address, and "Cancelado" comes with a truthy reason. The parsed value is the payload, its phone parsed. |
| OrderSchemas.UpdateKeysPass | app/api/schemas/orderSchemas.ts:57-100 | Every update key passes exactly when each is absent or valid. |
| OrderSchemas.UpdateIssuesEmpty | schemas/orderSchemas.ts:55-117 | No update issue exactly when the keys pass and neither refinement fires. |
| OrderSchemas.UpdatePartialPasses | app/api/schemas/orderSchemas.ts:57-108 | A payload that sets no key, or only a string `deliveryAddress` (the empty one included), parses to itself, in both versions. |
| OrderSchemas.UpdateCancelRule | app/api/schemas/orderSchemas.ts:110-115 | When no key aborted, the cancellation issue is reported exactly for "Cancelado" without a truthy reason. |
| OrderSchemas.UpdateAddressRule | schemas/orderSchemas.ts:103-109 | When no key aborted, the update's address issue is reported exactly when the payload itself sets "entrega" without a truthy address. |
| OrderSchemas.PatternPhoneHasDigitCount | schemas/orderSchemas.ts:9-11 | Every phone the live pattern accepts also passes the API version's digit-count rule. |
| OrderSchemas.DigitCountAcceptsMore | app/api/schemas/orderSchemas.ts:9-14 | The converse fails: any non-digit other than "(" in front of 10 or 11 digits passes the digit count but not the pattern. |
| OrderTypes.ParseStatus | types/pedido.ts:1-7 | A tag names a status exactly when it is one of the five status tags, and that status's tag is the text. |
| OrderTypes.StatusTagsExact | types/pedido.ts:1-7 | Exactly five distinct status tags, each parsing back to its own status. |
| OrderTypes.ParsePayment | types/pedido.ts:9-14 | A tag names a payment method exactly when it is one of the four payment tags. |
| OrderTypes.PaymentTagsExact | types/pedido.ts:9-14 | Exactly four distinct payment tags, each parsing back to its own method. |
| OrderTypes.ColorFamily | types/pedido.ts:33-47 | The colour family is gray exactly for a value outside the five statuses. |
| OrderTypes.StatusColor | types/pedido.ts:33-47 | `getStatusColor` returns the gray classes exactly for a value outside the enumeration. |
| OrderTypes.PaletteInjective | types/pedido.ts:36-46 | Different colour families give different class strings. |
| OrderTypes.StatusColorInjective | types/pedido.ts:33-47 | Distinct statuses get distinct classes, and none gets the gray ones. |
| OrderTypes.StatusColorDefault | types/pedido.ts:45-46 | Any value outside the enumeration gets the gray classes. |
| OrdersRoute.OrderStore.constructor | app/api/orders/route.ts:7-9 | The store starts with the given documents. |
| OrdersRoute.OrderStore.Post | app/api/orders/route.ts:11-41 | No session redirects to "/" before the body is read. A body that does not decode, a `null` body or a store failure answers 500 with the error's message. A body whose validation copy fails answers 400 with the issues. Otherwise the raw body is appended and returned. The store changes exactly when the answer is 200, by that one record. |
| OrdersRoute.OrderStore.Get | app/api/orders/route.ts:43-59 | No session redirects. A store failure answers 500. Otherwise every stored document, with no user filter, and the store is unchanged. |
| OrdersRoute.AcceptedBodyShape | app/api/orders/route.ts:20-33 | An accepted body has a name of at least 3, a phone that matches the pattern as typed (10 or 11 digits), details of at least 10, a listed delivery type and payment method, a string user and an address for a delivery. |
| OrdersRoute.OrderValueNeverReported | app/api/orders/route.ts:22-26 | `String(data.orderValue)` makes the total always a string, so it is never reported. |
| OrdersRoute.MissingDateReportedInvalid | app/api/orders/route.ts:22-26 | `new Date(undefined)` makes a missing delivery date an invalid one, reported as "Invalid date" and not with the schema's message. |
| FilterRoute.GetParam | app/api/orders/filter/route.ts:25 | `searchParams.get` answers a value exactly when the name occurs, and that value is the first one given for that name: no earlier parameter has the name. |
| FilterRoute.Term | app/api/orders/filter/route.ts:25 | An empty `term` counts as absent, and a present term is the parameter's value. |
| FilterRoute.FilterOrders | app/api/orders/filter/route.ts:33-52 | An order is in the result exactly when it is stored and selected, as many times as it is stored. The result is a sub-list of the store, in store order. |
| FilterRoute.HandleFilter | app/api/orders/filter/route.ts:9-59 | No session redirects. An empty query returns every order. The 400 branch is never taken. A store failure answers 500. Without a non-empty term the store's answer comes back. Otherwise the result is the stored orders whose name contains the term, or whose phone contains the term's digits, ignoring case, each as many times as stored, as a sub-list. |
| FilterRoute.ContainsEmpty | app/api/orders/filter/route.ts:46 | The empty pattern occurs in every string. |
| FilterRoute.DigitlessTermMatchesEveryPhone | app/api/orders/filter/route.ts:33-48 | A term without digits gives an empty phone pattern, so every order with a phone matches. |
| FilterRoute.DigitlessTermReturnsAll | app/api/orders/filter/route.ts:33-48 | Such a term returns the whole store, whatever the names. |
| FilterRoute.SearchAnaReturnsBeto | app/api/orders/filter/route.ts:33-48 | Searching "ana" returns "Beto Lopes" as well as "Ana Silva". The intended match returns only "Ana Silva". |
| FilterRoute.MaskedPhoneNotFound | app/api/orders/filter/route.ts:33-48 | A phone stored as the mask writes it is not found by its own eleven digits. The intended match finds it. |
| FilterRoute.IntendedDigitlessTerm | app/api/orders/filter/route.ts:33-48 | Corrected match: a term without digits selects on the name alone. |
| FilterRoute.IntendedFindsPhoneByDigits | app/api/orders/filter/route.ts:33-48 | Corrected match: a phone is found by its digits however it was typed. |
| NewOrderClient.NormalizeKeepsDigits | app/pedidos/novo/pageClient.tsx:69 | The text handed to `parseFloat` has exactly the digits of the typed amount. |
| NewOrderClient.NormalizeNoComma | app/pedidos/novo/pageClient.tsx:69 | Without a comma it is the bare digit string. |
| NewOrderClient.NormalizeFirstComma | app/pedidos/novo/pageClient.tsx:69 | Only the first comma becomes the point. Before it only digits remain, and after it digits and commas. |
| NewOrderClient.NormalizeOneComma | app/pedidos/novo/pageClient.tsx:69 | With one comma the text is the whole part's digits, ".", then the cents' digits, whatever the thousands separators. |
| NewOrderClient.NormalizeMasked | app/pedidos/novo/pageClient.tsx:68-70 | "R$ whole,cents" with an ASCII space, as the default value is written, becomes "whole.cents". |
| NewOrderClient.NormalizeGrouped | app/pedidos/novo/pageClient.tsx:68-70 | "R$ 1.234,56"-shaped amounts with an ASCII space become "1234.56". |
| NewOrderClient.GroupThousands | app/pedidos/novo/pageClient.tsx:259-262 | The currency format's grouping of a whole part writes only digits and "." and keeps exactly the whole part's digits. |
| NewOrderClient.NormalizeFormatted | app/pedidos/novo/pageClient.tsx:68-70 | An amount as the currency format writes it, "R$", a no-break space, a whole part without a comma, a comma and the cents, becomes the whole part's digits, "." and the cents, whatever the separators. |
| NewOrderClient.NormalizeAmountInput | app/pedidos/novo/pageClient.tsx:256-264 | Whatever is typed, the field shows the typed digits as a number of cents, and the live form sends that number's whole part, "." and its two cents digits. |
| NewOrderClient.NormalizeDefault | app/pedidos/novo/pageClient.tsx:52 | The default "R$ 0,00" becomes "0.00". |
| NewOrderClient.DefaultsRejected | app/pedidos/novo/pageClient.tsx:45-55 | The defaults describe a pick-up order with an undecided payment and a "0.00" total. They fail the schema, which reports the empty name, the empty phone, the empty details and the missing delivery date, each with its message. |
| NewOrderClient.GuardUnreachableAfterValidation | app/pedidos/novo/pageClient.tsx:58-64 | The values the schema lets through never trip the address guard. |
| NewOrderClient.NewOrderForm.constructor | app/pedidos/novo/pageClient.tsx:40-56 | There are no errors and no requests, and no navigation has happened. |
| NewOrderClient.NewOrderForm.Submit | app/pedidos/novo/pageClient.tsx:58-75 | A delivery without an address sets an error on `deliveryAddress` and sends nothing. Otherwise the values are sent with the normalised total. The form navigates to "/pedidos" only when the service resolves, and the handler rejects when it rejects. |
| NewOrderPage.FormSchemaIsLiveWithoutUser | app/pedidos/novo/page.tsx:40-72 | The page's schema reports exactly what the live create schema reports once a user id is present. |
| NewOrderPage.FormRules | app/pedidos/novo/page.tsx:42-50 | A name under 3 characters, details under 10 and a phone outside the pattern are reported. |
| NewOrderPage.RewriteNoSeparator | app/pedidos/novo/page.tsx:99-101 | "R$ whole,cents" with an ASCII space, as the default "R$ 0,00" is written, becomes "whole.cents", as on the live form. |
| NewOrderPage.RewriteOneSeparator | app/pedidos/novo/page.tsx:99-101 | With an ASCII space after "R$" and one thousands separator, the rewrite drops both the prefix and the separator. |
| NewOrderPage.RewriteAgreesUpToOneSeparator | app/pedidos/novo/page.tsx:99-101 | On amounts with an ASCII space after "R$", such as the default, and up to one separator, the page sends the same text as the live form. |
| NewOrderPage.RewriteFormatted | app/pedidos/novo/page.tsx:99-101 | On an amount as the currency format writes it, `replace("R$ ", "")` finds nothing, because the format puts a no-break space after "R$". The prefix stays, only the whole part's first "." is dropped, and the comma becomes ".". |
| NewOrderPage.TypedAmountNotANumber | app/pedidos/novo/page.tsx:99-101 | Whatever is typed into the amount field, the page hands `parseFloat` a text that begins with "R$", which gives NaN. The live form hands it a text that begins with a digit. |
| NewOrderPage.RewriteTwoSeparators | app/pedidos/novo/page.tsx:99-101 | On a formatted amount with two separators only the first is dropped: "R$", no-break space, "a.b.c,d" becomes the same prefix then "ab.c.d". |
| NewOrderPage.NormalizeTwoSeparators | app/pedidos/novo/pageClient.tsx:69 | The live rewrite drops the prefix and both separators: "abc.d". |
| NewOrderPage.SecondSeparatorSurvives | app/pedidos/novo/page.tsx:99-101 | The formatted "R$ 1.234.567,89" (no-break space) is sent as the prefix then "1234.567.89", which gives NaN. The live form sends "1234567.89". |
| NewOrderPage.LegacyOrderForm.constructor | app/pedidos/novo/page.tsx:74-89 | There are no errors and no requests, and no navigation has happened. |
| NewOrderPage.LegacyOrderForm.Submit | app/pedidos/novo/page.tsx:91-108 | A delivery without an address sets an error and sends nothing. Otherwise the values are sent with the rewritten total, and the page navigates to "/pedidos" without waiting. |
| OrdersPage.ReplaceById | app/pedidos/page.tsx:39 | The length is kept. Every entry with the id becomes the returned order, and every other entry is unchanged in place. |
| OrdersPage.ReplaceByIdAbsent | app/pedidos/page.tsx:39 | A list without the id is unchanged. |
| OrdersPage.ReplaceByIdIdempotent | app/pedidos/page.tsx:39 | Replacing twice is replacing once. |
| OrdersPage.ReplaceByIdKeepsIds | app/pedidos/page.tsx:39 | A returned order with the same id keeps every position's id. |
| OrdersPage.OrdersView.constructor | app/pedidos/page.tsx:16-23 | The list is the service's orders and the filter is empty. |
| OrdersPage.OrdersView.SetFilter | app/pedidos/page.tsx:25-27 | The filter text follows the input, and the list is unchanged. |
| OrdersPage.OrdersView.ApplyFilter | app/pedidos/page.tsx:29-34 | The filter text is the term sent, and the service's answer replaces the whole list. |
| OrdersPage.OrdersView.ApplyUpdate | app/pedidos/page.tsx:36-41 | A returned order replaces every entry with its id. No order leaves the list unchanged. |
| OrdersPage.OrdersView.HandleStatusChange | app/pedidos/page.tsx:36-41 | The same as `ApplyUpdate`, after a status change. |
| OrdersPage.OrdersView.HandlePaymentChange | app/pedidos/page.tsx:74-79 | The same as `ApplyUpdate`, after a payment change. |
| OrdersPage.OrdersView.HandlePaidToggle | app/pedidos/page.tsx:81-86 | The same as `ApplyUpdate`, after a paid toggle. |
| OrdersPage.PageStatusColor | app/pedidos/page.tsx:43-58 | The page's own colour pair is gray exactly for a value outside the five statuses. |
| OrdersPage.ShortPaletteInjective | app/pedidos/page.tsx:45-56 | Different families give different pairs. |
| OrdersPage.PageStatusColorInjective | app/pedidos/page.tsx:43-58 | Each status has its own pair, and none is gray. |
| OrdersPage.PageStatusColorIsPrefix | app/pedidos/page.tsx:43-58 | The page's pair is how the shared `getStatusColor` classes of the same value begin. |
| OrdersPage.ShortPaletteIsPrefix | app/pedidos/page.tsx:43-58 | For every colour family, the page's two classes are how the shared classes of that family begin. |

## Left out

- **Numbers.**
  - Numbers are integers. `Number`, `toLocaleString` and floating point are not modelled.
  - The money rewrites stop at the text handed to `parseFloat`. Of `parseFloat` only one fact is modelled: a text whose first character can neither be skipped as white space nor start a number or "Infinity" gives NaN.
  - The amount field's currency format is modelled on a whole number of cents: the division by 100 in floating point is taken as exact, which fails beyond 2^53 cents.
- **Dates.** `toISOString` and date formatting are not modelled. The date parser's verdict on a text is a parameter.
- **Strings.** They are sequences of characters. Case-insensitive matching lowers ASCII letters only.
  - `.min(n)` counts UTF-16 code units, and the model counts characters. So a name of two characters outside the Basic Multilingual Plane, two emoji say, passes `.min(3)` but is reported by the model.
- **Validation library.**
  - The error object's shape is not modelled. Issues are (key, message) pairs.
  - Objects and arrays are kept without their contents, which no modelled rule reads.
  - The text `String(...)` gives for an array or a valid date is not modelled.
- **`getOrdersSchema`.** No modelled handler uses it.
- **External services.**
  - Authentication is a session flag.
  - `NextResponse.redirect("/")` is taken at face value as a redirect to "/". The library may reject a relative URL by throwing, which inside the handlers' `try` would answer 500 instead.
  - A `POST` body keeps only the keys the schemas name. Other keys the raw body carries, which the store would also receive, are dropped.
  - The database: identifiers, timestamps and failures are parameters.
  - What the store answers to a filter query whose conditions are `contains: undefined` is a parameter.
- **UI and charts.** Also left out:
  - services/pedidoService.ts and services/graphsService.ts, which are network wrappers;
  - the monthly aggregate route and the charts;
  - rendering.
- **Stale imports.**
  - app/pedidos/novo/page.tsx and app/pedidos/page.tsx import names that types/pedido.ts no longer exports (`FormaPagamento`, `StatusPedido`, `Pedido`) and a service that no longer has those functions.
  - The model assumes those enumerations carry the current tags.
  - The service's answers are parameters.
- **Portuguese keys.** The older page's form keys are Portuguese. The model writes them with the same `Key`s as the live schema.
- **Filter matching.** A stored document whose name or phone is not a string is never matched by the filter.
- **NewOrderClient.NewOrderForm.Submit, NewOrderPage.LegacyOrderForm.Submit.** They require a string total, as the form's type does.
- RewriteAgreesUpToOneSeparator: the agreement holds only for amounts with an ASCII space after "R$", which the form holds only as its default value. On every amount the currency format writes, which has a no-break space there, the page and the live form disagree (NewOrderPage.TypedAmountNotANumber).

## Findings

| source | as written | input that shows it | evidently intended | confidence | as-written member | corrected member |
|---|---|---|---|---|---|---|
| app/pedidos/novo/page.tsx:99-101 | `replace("R$ ", "")` looks for an ASCII space, but the field holds what the currency format writes, with a no-break space after "R$", so the prefix stays and `parseFloat` gives NaN; also each string `replace` removes only the first "." | typing the digits 123456789 shows "R$ 1.234.567,89" (no-break space), which is sent as "R$ 1234.567.89" and read as NaN | The whole part's digits, ".", the cents: "1234567.89", as the live form sends | high, not executed | NewOrderPage.TypedAmountNotANumber | NewOrderClient.NormalizeAmountInput |
| app/api/orders/filter/route.ts:33 | The phone condition uses the term's digits even when there are none, and the empty pattern matches every phone | term "ana" returns "Beto Lopes" | A term without digits selects by name only | high, not executed | FilterRoute.DigitlessTermReturnsAll | FilterRoute.IntendedDigitlessTerm |
| app/api/orders/filter/route.ts:44-48 | The phone is stored as typed (`POST` stores the raw body) but searched by digits only | the phone "(11) 9 1234-5678" and the term "11912345678" | The stored phone's digits are compared with the term's digits | medium, not executed | FilterRoute.MaskedPhoneNotFound | FilterRoute.IntendedFindsPhoneByDigits |
