# LikeCard connector: order fulfilment and WhatsApp status messages

This project models two webhook handlers of a Shopify ↔ LikeCard connector
and proves properties of the models in Dafny.

**Order fulfilment** (`fulfillment.dfy`, module `Fulfillment`). This is the
`/webhook` handler in `server.js`. The pass starts from the order's note, or
`""` when the note is falsy. It walks the line items in order and skips any
item whose SKU is falsy. For every other item it builds the create-order form.
That form carries the merchant settings, the SKU as product id, the reference
id `SHOPIFY_<orderId>_<itemId>` and quantity `"1"`. The form goes to the
LikeCard provider, and the pass reads the `serialCode` of the first serial in
the reply. When that code is truthy, the pass appends a block with the item
name and the code to the admin note, and a line to the customer-facing codes
text. Otherwise it appends a failure line to the note only. After the last
item the pass calls `updateShopifyOrder` once, with the note and a single
metafield, and only when the codes text is non-empty. The metafield has
namespace `digital_product`, key `codes`, type `multi_line_text_field` and the
codes text as its value.

The provider is a parameter of the model: a function from the form to a reply,
or to `CallFailed` when the call throws. The Shopify update is returned as an
`Option<OrderUpdate>` rather than performed. The create-order forms sent are
returned too, in order.

**WhatsApp status message** (`whatsapp.dfy`, module `WhatsApp`). This is the
`/whatsapp-webhook` handler in `whatsapp-service/server.js`. It uses the
shipping phone, or the billing phone when the shipping phone is falsy, and
sends nothing when both are falsy. Missing statuses default to `"pending"` and
`"unfulfilled"`. The order counts as digital when some line has product type
`"Digital"` or a title containing `"LikeCard"`. The message is a header with
the order name, then at most one payment line, then at most one fulfilment
line, and for a digital order the note or a default text. The send is
returned as a sequence of `Message` values and is not performed.

`text.dfy` (module `Text`) renders a non-negative number in decimal, as a
template literal does. It also defines `String.prototype.includes` and the
infix relation that specifies it. `wrappers.dfy` (module `Wrappers`) defines
`Option` and the JavaScript truthiness of an optional string.

The message texts are Dafny string constants that copy the program's Arabic
and emoji literals.

## Where the model departs from the code as written

In `server.js:25` the initialiser of `createOrderResponse` passes
`createOrderResponse` itself to `likeCardApiCall`. It should pass
`createOrderPayload`, which is built on line 24. In JavaScript, reading a
`const` inside its own initialiser throws a ReferenceError. The catch at
`server.js:58-60` swallows that error. So, as written, every order that has an
item with a SKU ends the pass at that item, and no order is ever updated.
`Fulfillment.ProcessOrder` models the evident intent: it sends the line-24
payload. `Fulfillment.ProcessOrderAsWritten` models the code as written (see
"## Findings").

The handler neither polls nor retries. It writes the order exactly when some
code was received, whether or not the note changed.

## Model

| member | source | states |
|---|---|---|
| `Wrappers.Truthy` | whatsapp-service/server.js:34 | no contract of its own: an optional string is truthy when present and non-empty; used by `Wrappers.OrElse` and every falsy test |
| `Wrappers.OrElse` | whatsapp-service/server.js:40-41 | a JavaScript `or` with a fallback gives the value when it is truthy and the fallback otherwise |
| `Text.Decimal` | server.js:20 | the rendering of a number is a non-empty run of digits, with no leading zero unless the number is 0 |
| `Text.DigitsValue` | server.js:20 | no contract of its own: the number a run of decimal digits denotes; used by `Text.DecimalValue` |
| `Text.DecimalValue` | server.js:20 | the digits of the rendering denote the number in base 10, so `${n}` writes `n` in decimal |
| `Text.DecimalInjective` | server.js:20 | different numbers render to different strings |
| `Text.SplitAfterDigits` | server.js:20 | a digit block, then a non-digit separator, then a tail: equal strings of this shape have equal blocks and equal tails |
| `Text.Includes` | whatsapp-service/server.js:42 | no contract of its own: `String.prototype.includes`; its meaning is stated by `Text.IncludesIsInfix` |
| `Text.IncludesImpliesInfix` | whatsapp-service/server.js:42 | when `includes` is true, the substring occurs at some position |
| `Text.InfixImpliesIncludes` | whatsapp-service/server.js:42 | when the substring occurs at some position, `includes` is true |
| `Text.IncludesIsInfix` | whatsapp-service/server.js:42 | `includes` holds exactly when the substring occurs at some position |
| `Fulfillment.InitialNote` | server.js:13 | the pass starts from the order's note when it is truthy, and from `""` otherwise |
| `Fulfillment.HasSku` | server.js:17-18 | no contract of its own: an item is processed exactly when its SKU is truthy; stated by `Fulfillment.ItemOutcome` and `Fulfillment.SkippedItemChangesNothing` |
| `Fulfillment.ReferenceId` | server.js:20 | every reference id starts with `SHOPIFY_` |
| `Fulfillment.ReferenceIdInjective` | server.js:20 | equal reference ids come from the same order id and item id, so distinct items get distinct ids |
| `Fulfillment.CreateOrderRequest` | server.js:24 | the form sends the item's SKU as product id, a reference id with the `SHOPIFY_` prefix and quantity `"1"` |
| `Fulfillment.RequestIdentifiesItem` | server.js:20-24 | two items of one order send equal forms only when they have the same item id and SKU |
| `Fulfillment.FirstSerialCode` | server.js:29 | only the first serial entry is read; with no serials, or an empty list, there is no code |
| `Fulfillment.FirstSerialOnly` | server.js:29 | entries after the first never change the code taken |
| `Fulfillment.ItemOutcome` | server.js:17-31 | an item is skipped exactly when its SKU is falsy; it aborts exactly when its call fails; it receives a code exactly when the reply's first serial code is truthy, and that code is the one received |
| `Fulfillment.NoteFragment` | server.js:31-43 | no contract of its own: the admin-note block for a received code, the failure line for a reply without one, nothing otherwise; stated by `Fulfillment.FragmentsOfOutcome` |
| `Fulfillment.DisplayFragment` | server.js:39 | no contract of its own: the customer-facing line for a received code, nothing otherwise; stated by `Fulfillment.FragmentsOfOutcome` |
| `Fulfillment.FragmentsOfOutcome` | server.js:31-43 | a skipped item adds no note text; an answered item adds one non-empty note fragment containing its name, which also contains the code on success; only a received code adds to the customer text, and that text contains the name and the code |
| `Fulfillment.Notes` | server.js:16-43 | no contract of its own: the note fragments of the items, in item order; stated by `Fulfillment.NotesConcat`, `Fulfillment.PassStep` and `Fulfillment.ProcessOrder` |
| `Fulfillment.Codes` | server.js:16-43 | no contract of its own: the customer-facing fragments of the items, in item order; stated by `Fulfillment.CodesConcat` and `Fulfillment.CodesEmptyIffNoCode` |
| `Fulfillment.Requests` | server.js:16-25 | no contract of its own: the forms of the items with a SKU, in item order; stated by `Fulfillment.RequestsConcat` and `Fulfillment.RequestsComeFromSkuItems` |
| `Fulfillment.CodesMetafield` | server.js:48-53 | no contract of its own: the one metafield, namespace `digital_product`, key `codes`, type `multi_line_text_field`, holding the codes text; used by `Fulfillment.ProcessOrder` |
| `Fulfillment.NotesConcat` | server.js:16-43 | the note text of `a + b` is the note text of `a` followed by that of `b`, so fragments appear in item order |
| `Fulfillment.CodesConcat` | server.js:39 | the codes text of `a + b` is the codes text of `a` followed by that of `b` |
| `Fulfillment.RequestsConcat` | server.js:16-25 | the requests for `a + b` are the requests for `a` followed by those for `b` |
| `Fulfillment.SkippedItemChangesNothing` | server.js:17-18 | inserting an item without a SKU anywhere leaves the note, the codes text and the requests unchanged |
| `Fulfillment.CodesEmptyIffNoCode` | server.js:39-47 | the codes text is empty exactly when no item received a code, so failed items never contribute to it |
| `Fulfillment.RequestsComeFromSkuItems` | server.js:17-25 | every request sent is the form of an item with a SKU; an order with no SKU item sends none |
| `Fulfillment.NoCallFailed` | server.js:25 | no contract of its own: no create-order call among the items threw, which is what a pass needs to get past the last item (server.js:58-60 swallows a throw); used by `Fulfillment.ProcessOrder` and `Fulfillment.NoCallFailedStep` |
| `Fulfillment.PassStep` | server.js:16-43 | one more item extends the note, the codes text and the requests by that item's contribution alone |
| `Fulfillment.NoCallFailedStep` | server.js:25 | the prefix through item `i` has no failed call exactly when the shorter prefix has none and item `i` did not abort |
| `Fulfillment.ProcessOrder` | server.js:13-55 | a completed pass sends one request per SKU item, in order; it issues at most one update, after all items, exactly when some item received a code; the update carries the order id, the initial note followed by every item's fragment in order (so the old note is a prefix), and exactly one metafield (`digital_product`, `codes`, `multi_line_text_field`) holding the codes text; a failed call ends the pass at the first failing item, with no update |
| `Fulfillment.ProcessOrderAsWritten` | server.js:16-60 | as written, the pass aborts exactly when some item has a SKU; it never sends a request and never issues an update |
| `Fulfillment.AsWrittenLosesReceivedCode` | server.js:24-25 | an order with one item that has SKU `376`, whose reply carries `ABC123`: the item receives its code and the codes text is non-empty |
| `Fulfillment.AsWrittenLosesUpdate` | server.js:24-60 | on that order the intended pass completes and updates the order, while the pass as written aborts and issues no update |
| `WhatsApp.AddressPhone` | whatsapp-service/server.js:33 | no contract of its own: `address?.phone`; used by `WhatsApp.SelectPhone` |
| `WhatsApp.SelectPhone` | whatsapp-service/server.js:33-37 | the shipping phone when it is truthy, else the billing phone when it is truthy, else no phone; a chosen phone is never empty |
| `WhatsApp.FinancialStatus` | whatsapp-service/server.js:40 | a falsy `financial_status` reads as `"pending"`, and a truthy one is kept |
| `WhatsApp.FulfillmentStatus` | whatsapp-service/server.js:41 | a falsy `fulfillment_status` reads as `"unfulfilled"`, and a truthy one is kept |
| `WhatsApp.IsDigitalLine` | whatsapp-service/server.js:42 | no contract of its own: a line is digital when its product type is `Digital` or its title includes `LikeCard`; stated by `WhatsApp.SomeDigitalIff` |
| `WhatsApp.SomeDigital` | whatsapp-service/server.js:42 | no contract of its own: `line_items.some(...)`; stated by `WhatsApp.SomeDigitalIff` |
| `WhatsApp.SomeDigitalIff` | whatsapp-service/server.js:42 | the order is digital exactly when some line has product type `Digital` or a title in which `LikeCard` occurs |
| `WhatsApp.Header` | whatsapp-service/server.js:44 | no contract of its own: the first line with the order name; stated by `WhatsApp.MessageLayout` |
| `WhatsApp.CreatedLine` | whatsapp-service/server.js:47 | no contract of its own: the "created" line with total and currency; stated by `WhatsApp.PaymentSegmentCases` |
| `WhatsApp.PaidLine` | whatsapp-service/server.js:50 | no contract of its own: the "paid" line with total and currency; stated by `WhatsApp.PaymentSegmentCases` |
| `WhatsApp.PaymentSegment` | whatsapp-service/server.js:46-51 | no contract of its own: stated by `WhatsApp.PaymentSegmentCases` |
| `WhatsApp.FulfillmentSegment` | whatsapp-service/server.js:52-57 | no contract of its own: stated by `WhatsApp.FulfillmentSegmentCases` |
| `WhatsApp.NoteSegment` | whatsapp-service/server.js:60-62 | no contract of its own: for a digital order, the note or the default text; stated by `WhatsApp.MessageLayout` |
| `WhatsApp.Compose` | whatsapp-service/server.js:33-63 | a message exists exactly when a phone was found, and it is addressed to that phone |
| `WhatsApp.PaymentSegmentCases` | whatsapp-service/server.js:46-51 | the payment segment is the "created" line exactly for `pending` and the "paid" line exactly for `paid`; these lines differ, and any other status adds nothing |
| `WhatsApp.FulfillmentSegmentCases` | whatsapp-service/server.js:52-57 | the fulfilment segment is the "shipped" line exactly for `shipped` and the "fulfilled" line exactly for `fulfilled`; these lines differ, any other status adds nothing, so at most one is appended |
| `WhatsApp.MessageLayout` | whatsapp-service/server.js:44-63 | the message starts with the header, which ends in a newline; the fulfilment segment follows the payment segment; a digital order's message ends with the note, or with the default text when the note is falsy; a non-digital order's message is the header, payment and fulfilment segments only |
| `WhatsApp.HandleWhatsAppWebhook` | whatsapp-service/server.js:31-66 | the appends, in the order they happen, build the composed message; exactly one message is sent when a phone is found, and none otherwise |

## Findings

| source | as written | input that shows it | evidently intended | confidence | as-written member | corrected member |
|---|---|---|---|---|---|---|
| server.js:25 | the create-order call passes `createOrderResponse`, the constant its own initialiser is defining; this throws a ReferenceError, and the catch at server.js:58-60 swallows it | an order with one line item with SKU `376`, where the provider would reply with serial `ABC123`: the pass aborts and the order is never updated | pass `createOrderPayload` from server.js:24, so the item receives `ABC123` and the order is updated once | high (not executed) | `Fulfillment.ProcessOrderAsWritten`, `Fulfillment.AsWrittenLosesReceivedCode`, `Fulfillment.AsWrittenLosesUpdate` | `Fulfillment.ProcessOrder` |

## Left out

- HTTP plumbing is not modelled: Express routing, the `res.status(200)` replies and `app.listen`.
- `likeCardApiCall` is not part of this model. The provider is a function parameter that returns a reply or `CallFailed`.
- `updateShopifyOrder` is not part of this model. The update is returned as a value. A failure of that call happens after everything the model states, so it changes nothing in the model.
- `generateHash` and the `time` and `hash` fields of the create-order form are not modelled. `time` is read from the clock, and `hash` is a SHA-256 digest, which is a foreign crypto call. Its input is the time, the lower-cased merchant email, the merchant phone and the key, concatenated.
- `test-order.js` and `test-hash.js` are not modelled. They are one-off scripts that read environment variables, post to the provider and log.
- `sendWhatsAppMessage` and axios are not modelled: they are a network client with hard-coded credentials. The send is returned as a value.
- Console logging is not modelled.
- Payload shapes that make JavaScript throw are not modelled. The model's types cannot represent them. The fulfilment pass throws on a missing `line_items` (server.js:16). It also throws on a `null` entry when the loop reaches it (server.js:17). When that entry follows an item with a SKU, the earlier requests have already gone out and the pass ends with no update. The catch at server.js:58-60 swallows both errors. The WhatsApp handler throws on a missing `line_items` only after it has found a phone (whatsapp-service/server.js:42). A line item with no `title` makes the WhatsApp handler throw only when `some` reaches that line and its product type is not `"Digital"`, because `||` short-circuits and `some` stops at the first digital line. Otherwise the handler still sends its message. The model's titles are always strings, so an order with a line that has no title cannot be stated at all.
- A `null` element in the provider's `serials` array is treated like an entry without a `serialCode`. Both give no code.
- Order and item ids are unbounded naturals. JavaScript numbers above 2^53 would lose precision when rendered, and Shopify ids stay below that.
- Dafny strings are sequences of Unicode scalar values, while JavaScript strings are UTF-16. The properties here are about prefixes, suffixes and infixes, which hold alike under either encoding. Lone surrogates, which a Dafny string cannot hold, are not modelled.
