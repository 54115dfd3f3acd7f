/** The order-fulfilment pass of the Shopify `/webhook` handler: for every line
    item that carries a SKU it asks the LikeCard provider to create an order,
    takes the first serial code of the reply, records the outcome in the order's
    admin note and, for received codes, in a customer-facing text; after the
    last item it updates the Shopify order once, and only when some code was
    received.

    The provider's `create_order` endpoint is a parameter: `provider(payload)`
    is its reply to `payload`, or the failure of the call.  A failed call
    throws out of the pass, and the handler's catch swallows it, so the pass
    ends there without an update.  The Shopify update is returned, not
    performed. */
module Fulfillment {
  import opened Wrappers
  import opened Text

  // ---------------------------------------------------------------------------
  // Data model

  /** A Shopify line item: numeric id, optional SKU (the LikeCard product id) and display name. */
  datatype LineItem = LineItem(id: nat, sku: Option<string>, name: string)

  /** The part of a Shopify order payload the pass reads. */
  datatype ShopifyOrder = ShopifyOrder(id: nat, note: Option<string>, lineItems: seq<LineItem>)

  /** Merchant settings sent with every provider request. */
  datatype Config = Config(
    deviceId: string, merchantEmail: string, merchantPhone: string,
    securityCode: string, langId: string)

  /** The form sent to `/create_order`.  `time` and `hash` are not modelled. */
  datatype CreateOrderPayload = CreateOrderPayload(
    deviceId: string, email: string, phone: string, securityCode: string,
    langId: string, productId: string, referenceId: string, quantity: string)

  datatype SerialEntry = SerialEntry(serialCode: Option<string>)

  /** The provider's reply; `serials` may be absent. */
  datatype CreateOrderResponse = CreateOrderResponse(serials: Option<seq<SerialEntry>>)

  /** A reply, or a call that threw (transport error, or a `null`/`undefined` reply, whose `serials` cannot be read). */
  datatype ProviderReply = Replied(response: CreateOrderResponse) | CallFailed

  type Provider = CreateOrderPayload -> ProviderReply

  datatype Metafield = Metafield(namespace: string, key: string, fieldType: string, value: string)

  /** The arguments of one `updateShopifyOrder(orderId, orderNotes, metafields)` call. */
  datatype OrderUpdate = OrderUpdate(orderId: nat, note: string, metafields: seq<Metafield>)

  /** What happened to one line item. */
  datatype Outcome = Skipped | CodeReceived(code: string) | NoCode | Aborted

  // ---------------------------------------------------------------------------
  // Constants of the handler

  const ReferencePrefix: string := "SHOPIFY_"
  const Quantity: string := "1"
  const Rule: string := "\n--------------------------------\n"
  const ProductLabel: string := "المنتج: "
  const CodeLabel: string := "\nالكود: "
  const FailureOpen: string := "\n!! فشل استلام كود المنتج: "
  const FailureClose: string := " !!"
  const CodesNamespace: string := "digital_product"
  const CodesKey: string := "codes"
  const CodesType: string := "multi_line_text_field"

  // ---------------------------------------------------------------------------
  // One line item

  /** `shopifyOrder.note || ""` */
  function InitialNote(order: ShopifyOrder): (r: string)
    ensures Truthy(order.note) ==> r == order.note.value
    ensures !Truthy(order.note) ==> r == ""
  {
    OrElse(order.note, "")
  }

  /** Items whose SKU is falsy are skipped. */
  predicate HasSku(item: LineItem) {
    Truthy(item.sku)
  }

  /** `SHOPIFY_${orderId}_${item.id}` */
  function ReferenceId(orderId: nat, itemId: nat): (r: string)
    ensures ReferencePrefix <= r
  {
    ReferencePrefix + Decimal(orderId) + "_" + Decimal(itemId)
  }

  /** Reference ids are unique: different (order, item) pairs never share one,
      so in particular distinct items of one order get distinct ids. */
  lemma ReferenceIdInjective(o1: nat, i1: nat, o2: nat, i2: nat)
    requires ReferenceId(o1, i1) == ReferenceId(o2, i2)
    ensures o1 == o2 && i1 == i2
  {
    var r := ReferenceId(o1, i1);
    var n := |ReferencePrefix|;
    assert r[n..] == Decimal(o1) + "_" + Decimal(i1);
    assert r[n..] == Decimal(o2) + "_" + Decimal(i2);
    SplitAfterDigits(Decimal(o1), Decimal(i1), Decimal(o2), Decimal(i2), '_');
    DecimalInjective(o1, o2);
    DecimalInjective(i1, i2);
  }

  /** The create-order form for an item with a SKU. */
  function CreateOrderRequest(config: Config, orderId: nat, item: LineItem): (p: CreateOrderPayload)
    requires HasSku(item)
    ensures p.productId == item.sku.value && p.productId != ""
    ensures ReferencePrefix <= p.referenceId && p.quantity == Quantity
  {
    CreateOrderPayload(
      config.deviceId, config.merchantEmail, config.merchantPhone, config.securityCode,
      config.langId, item.sku.value, ReferenceId(orderId, item.id), Quantity)
  }

  /** Two items of one order send the same form only when they have the same
      item id and the same SKU. */
  lemma RequestIdentifiesItem(config: Config, orderId: nat, a: LineItem, b: LineItem)
    requires HasSku(a) && HasSku(b)
    requires CreateOrderRequest(config, orderId, a) == CreateOrderRequest(config, orderId, b)
    ensures a.id == b.id && a.sku == b.sku
  {
    ReferenceIdInjective(orderId, a.id, orderId, b.id);
  }

  /** `serials && serials[0] ? serials[0].serialCode : null`: only the first entry is read. */
  function FirstSerialCode(response: CreateOrderResponse): (r: Option<string>)
    ensures r.Some? ==> response.serials.Some? && |response.serials.value| > 0
    ensures response.serials.Some? && |response.serials.value| > 0 ==>
              r == response.serials.value[0].serialCode
    ensures response.serials.None? || response.serials.value == [] ==> r.None?
  {
    match response.serials
    case None => None
    case Some(entries) => if |entries| > 0 then entries[0].serialCode else None
  }

  /** Entries after the first never change which code is taken. */
  lemma FirstSerialOnly(first: SerialEntry, rest1: seq<SerialEntry>, rest2: seq<SerialEntry>)
    ensures FirstSerialCode(CreateOrderResponse(Some([first] + rest1)))
         == FirstSerialCode(CreateOrderResponse(Some([first] + rest2)))
         == first.serialCode
  {
  }

  /** The outcome of one item: skipped without a SKU, aborted when the
      create-order call fails, otherwise decided by the first serial code of
      the provider's reply to the item's request. */
  function ItemOutcome(config: Config, orderId: nat, item: LineItem, provider: Provider): (o: Outcome)
    ensures o.Skipped? <==> !HasSku(item)
    ensures o.Aborted? <==> HasSku(item) && provider(CreateOrderRequest(config, orderId, item)).CallFailed?
    ensures o.CodeReceived? <==>
              && HasSku(item)
              && provider(CreateOrderRequest(config, orderId, item)).Replied?
              && Truthy(FirstSerialCode(provider(CreateOrderRequest(config, orderId, item)).response))
    ensures o.CodeReceived? ==>
              Some(o.code) == FirstSerialCode(provider(CreateOrderRequest(config, orderId, item)).response)
  {
    if !HasSku(item) then Skipped
    else
      match provider(CreateOrderRequest(config, orderId, item))
      case CallFailed => Aborted
      case Replied(response) =>
        var serialCode := FirstSerialCode(response);
        if Truthy(serialCode) then CodeReceived(serialCode.value) else NoCode
  }

  /** What the item appends to the admin note. */
  function NoteFragment(item: LineItem, outcome: Outcome): string {
    match outcome
    case CodeReceived(code) => Rule + ProductLabel + item.name + CodeLabel + code + Rule
    case NoCode => FailureOpen + item.name + FailureClose
    case _ => ""
  }

  /** What the item appends to the customer-facing codes text. */
  function DisplayFragment(item: LineItem, outcome: Outcome): string {
    match outcome
    case CodeReceived(code) => ProductLabel + item.name + CodeLabel + code + "\n\n"
    case _ => ""
  }

  /** A skipped item appends nothing; an item whose call was answered appends
      exactly one non-empty note fragment, naming the item and, on success, the
      code; only a received code reaches the customer-facing text. */
  lemma FragmentsOfOutcome(item: LineItem, outcome: Outcome)
    ensures outcome.Skipped? ==> NoteFragment(item, outcome) == ""
    ensures outcome.CodeReceived? || outcome.NoCode? ==>
              NoteFragment(item, outcome) != "" && IsInfix(item.name, NoteFragment(item, outcome))
    ensures DisplayFragment(item, outcome) != "" <==> outcome.CodeReceived?
    ensures outcome.CodeReceived? ==>
              IsInfix(outcome.code, NoteFragment(item, outcome))
              && IsInfix(item.name, DisplayFragment(item, outcome))
              && IsInfix(outcome.code, DisplayFragment(item, outcome))
  {
    match outcome
    case CodeReceived(code) =>
      InfixOfConcat(Rule + ProductLabel, item.name, CodeLabel + code + Rule);
      assert Rule + ProductLabel + item.name + CodeLabel + code + Rule
          == (Rule + ProductLabel) + item.name + (CodeLabel + code + Rule);
      InfixOfConcat(Rule + ProductLabel + item.name + CodeLabel, code, Rule);
      InfixOfConcat(ProductLabel, item.name, CodeLabel + code + "\n\n");
      assert ProductLabel + item.name + CodeLabel + code + "\n\n"
          == ProductLabel + item.name + (CodeLabel + code + "\n\n");
      InfixOfConcat(ProductLabel + item.name + CodeLabel, code, "\n\n");
    case NoCode =>
      InfixOfConcat(FailureOpen, item.name, FailureClose);
    case _ =>
  }

  // ---------------------------------------------------------------------------
  // The whole pass, as functions of the items walked so far

  /** The concatenated note fragments of `items`, in item order. */
  function Notes(config: Config, orderId: nat, items: seq<LineItem>, provider: Provider): string
    decreases |items|
  {
    if items == [] then ""
    else
      var last := items[|items| - 1];
      Notes(config, orderId, items[..|items| - 1], provider)
        + NoteFragment(last, ItemOutcome(config, orderId, last, provider))
  }

  /** The concatenated customer-facing fragments of `items`, in item order. */
  function Codes(config: Config, orderId: nat, items: seq<LineItem>, provider: Provider): string
    decreases |items|
  {
    if items == [] then ""
    else
      var last := items[|items| - 1];
      Codes(config, orderId, items[..|items| - 1], provider)
        + DisplayFragment(last, ItemOutcome(config, orderId, last, provider))
  }

  /** The create-order requests issued for `items`, in item order. */
  function Requests(config: Config, orderId: nat, items: seq<LineItem>): seq<CreateOrderPayload>
    decreases |items|
  {
    if items == [] then []
    else
      var last := items[|items| - 1];
      Requests(config, orderId, items[..|items| - 1])
        + (if HasSku(last) then [CreateOrderRequest(config, orderId, last)] else [])
  }

  /** The single metafield of the update. */
  function CodesMetafield(codes: string): Metafield {
    Metafield(CodesNamespace, CodesKey, CodesType, codes)
  }

  /** The pass over `a + b` is the pass over `a` followed by the pass over `b`:
      the note of the whole is the notes of the parts, in order. */
  lemma {:induction false} NotesConcat(config: Config, orderId: nat, a: seq<LineItem>, b: seq<LineItem>, provider: Provider)
    ensures Notes(config, orderId, a + b, provider)
         == Notes(config, orderId, a, provider) + Notes(config, orderId, b, provider)
    decreases |b|
  {
    if b == [] {
      assert a + b == a;
    } else {
      var b' := b[..|b| - 1];
      var last := b[|b| - 1];
      assert (a + b)[..|a + b| - 1] == a + b';
      assert (a + b)[|a + b| - 1] == last;
      NotesConcat(config, orderId, a, b', provider);
      AppendAssoc(Notes(config, orderId, a, provider), Notes(config, orderId, b', provider),
        NoteFragment(last, ItemOutcome(config, orderId, last, provider)));
    }
  }

  /** Likewise for the codes text. */
  lemma {:induction false} CodesConcat(config: Config, orderId: nat, a: seq<LineItem>, b: seq<LineItem>, provider: Provider)
    ensures Codes(config, orderId, a + b, provider)
         == Codes(config, orderId, a, provider) + Codes(config, orderId, b, provider)
    decreases |b|
  {
    if b == [] {
      assert a + b == a;
    } else {
      var b' := b[..|b| - 1];
      var last := b[|b| - 1];
      assert (a + b)[..|a + b| - 1] == a + b';
      assert (a + b)[|a + b| - 1] == last;
      CodesConcat(config, orderId, a, b', provider);
      AppendAssoc(Codes(config, orderId, a, provider), Codes(config, orderId, b', provider),
        DisplayFragment(last, ItemOutcome(config, orderId, last, provider)));
    }
  }

  /** Likewise for the requests sent. */
  lemma {:induction false} RequestsConcat(config: Config, orderId: nat, a: seq<LineItem>, b: seq<LineItem>)
    ensures Requests(config, orderId, a + b)
         == Requests(config, orderId, a) + Requests(config, orderId, b)
    decreases |b|
  {
    if b == [] {
      assert a + b == a;
    } else {
      var b' := b[..|b| - 1];
      var last := b[|b| - 1];
      assert (a + b)[..|a + b| - 1] == a + b';
      assert (a + b)[|a + b| - 1] == last;
      RequestsConcat(config, orderId, a, b');
      AppendAssoc(Requests(config, orderId, a), Requests(config, orderId, b'),
        if HasSku(last) then [CreateOrderRequest(config, orderId, last)] else []);
    }
  }

  /** An item without a SKU, wherever it stands, issues no request and changes
      neither the note nor the codes text. */
  lemma SkippedItemChangesNothing(
    config: Config, orderId: nat, a: seq<LineItem>, item: LineItem, b: seq<LineItem>, provider: Provider)
    requires !HasSku(item)
    ensures Notes(config, orderId, a + [item] + b, provider) == Notes(config, orderId, a + b, provider)
    ensures Codes(config, orderId, a + [item] + b, provider) == Codes(config, orderId, a + b, provider)
    ensures Requests(config, orderId, a + [item] + b) == Requests(config, orderId, a + b)
  {
    assert [item][..0] == [];
    assert Notes(config, orderId, [item], provider) == "";
    assert Codes(config, orderId, [item], provider) == "";
    assert Requests(config, orderId, [item]) == [];
    NotesConcat(config, orderId, a + [item], b, provider);
    NotesConcat(config, orderId, a, [item], provider);
    NotesConcat(config, orderId, a, b, provider);
    assert Notes(config, orderId, a + [item], provider) == Notes(config, orderId, a, provider);
    CodesConcat(config, orderId, a + [item], b, provider);
    CodesConcat(config, orderId, a, [item], provider);
    CodesConcat(config, orderId, a, b, provider);
    assert Codes(config, orderId, a + [item], provider) == Codes(config, orderId, a, provider);
    RequestsConcat(config, orderId, a + [item], b);
    RequestsConcat(config, orderId, a, [item]);
    RequestsConcat(config, orderId, a, b);
    assert Requests(config, orderId, a + [item]) == Requests(config, orderId, a);
  }

  /** The codes text is empty exactly when no item received a code. */
  lemma {:induction false} CodesEmptyIffNoCode(config: Config, orderId: nat, items: seq<LineItem>, provider: Provider)
    ensures Codes(config, orderId, items, provider) == "" <==>
              forall j :: 0 <= j < |items| ==> !ItemOutcome(config, orderId, items[j], provider).CodeReceived?
    decreases |items|
  {
    if items != [] {
      var init, last := items[..|items| - 1], items[|items| - 1];
      CodesEmptyIffNoCode(config, orderId, init, provider);
      FragmentsOfOutcome(last, ItemOutcome(config, orderId, last, provider));
      assert forall j :: 0 <= j < |init| ==> init[j] == items[j];
    }
  }

  /** Every request sent is the create-order form of an item with a SKU, and
      an order with no such item sends none. */
  lemma {:induction false} RequestsComeFromSkuItems(config: Config, orderId: nat, items: seq<LineItem>)
    ensures forall k :: 0 <= k < |Requests(config, orderId, items)| ==>
              exists j :: 0 <= j < |items| && HasSku(items[j])
                && Requests(config, orderId, items)[k] == CreateOrderRequest(config, orderId, items[j])
    ensures (forall j :: 0 <= j < |items| ==> !HasSku(items[j])) ==> Requests(config, orderId, items) == []
    decreases |items|
  {
    if items != [] {
      var init := items[..|items| - 1];
      RequestsComeFromSkuItems(config, orderId, init);
      assert forall j :: 0 <= j < |init| ==> init[j] == items[j];
      var before := Requests(config, orderId, init);
      var all := Requests(config, orderId, items);
      forall k | 0 <= k < |Requests(config, orderId, items)|
        ensures exists j :: 0 <= j < |items| && HasSku(items[j])
                  && Requests(config, orderId, items)[k] == CreateOrderRequest(config, orderId, items[j])
      {
        if k < |before| {
          var j :| 0 <= j < |init| && HasSku(init[j])
                   && before[k] == CreateOrderRequest(config, orderId, init[j]);
          assert all[k] == before[k] && items[j] == init[j];
        } else {
          assert all[k] == CreateOrderRequest(config, orderId, items[|items| - 1]);
        }
      }
    } else {
      assert Requests(config, orderId, items) == [];
    }
  }

  /** No create-order call among `items` failed. */
  predicate NoCallFailed(config: Config, orderId: nat, items: seq<LineItem>, provider: Provider) {
    forall j :: 0 <= j < |items| ==> !ItemOutcome(config, orderId, items[j], provider).Aborted?
  }

  /** One more item extends each of the three by that item's contribution. */
  lemma PassStep(config: Config, orderId: nat, items: seq<LineItem>, i: nat, provider: Provider)
    requires i < |items|
    ensures var outcome := ItemOutcome(config, orderId, items[i], provider);
      && Notes(config, orderId, items[..i + 1], provider)
         == Notes(config, orderId, items[..i], provider) + NoteFragment(items[i], outcome)
      && Codes(config, orderId, items[..i + 1], provider)
         == Codes(config, orderId, items[..i], provider) + DisplayFragment(items[i], outcome)
      && Requests(config, orderId, items[..i + 1])
         == Requests(config, orderId, items[..i])
            + (if HasSku(items[i]) then [CreateOrderRequest(config, orderId, items[i])] else [])
  {
    assert items[..i + 1][..i] == items[..i];
  }

  lemma NoCallFailedStep(config: Config, orderId: nat, items: seq<LineItem>, i: nat, provider: Provider)
    requires i < |items|
    ensures NoCallFailed(config, orderId, items[..i + 1], provider)
        <==> NoCallFailed(config, orderId, items[..i], provider)
             && !ItemOutcome(config, orderId, items[i], provider).Aborted?
  {
  }

  // ---------------------------------------------------------------------------
  // The handler

  /** The pass as the handler means it: each SKU item's request is sent and the
      reply decides its outcome.  Returns the Shopify update, if one is issued,
      the create-order requests sent, in order, and whether the pass got past
      the last item.

      server.js:25 as written passes `createOrderResponse`, the constant being
      declared, instead of `createOrderPayload`; this model sends the payload
      built at server.js:24 (see ProcessOrderAsWritten for the code as written). */
  method ProcessOrder(order: ShopifyOrder, config: Config, provider: Provider)
    returns (update: Option<OrderUpdate>, requests: seq<CreateOrderPayload>, completed: bool)
    ensures completed <==> NoCallFailed(config, order.id, order.lineItems, provider)
    // a completed pass sends one request per SKU item and updates the order
    // once, exactly when some item received a code
    ensures completed ==> requests == Requests(config, order.id, order.lineItems)
    ensures completed ==>
              (update.Some? <==>
                 exists j :: 0 <= j < |order.lineItems|
                   && ItemOutcome(config, order.id, order.lineItems[j], provider).CodeReceived?)
    ensures update.Some? ==>
              && completed
              && update.value.orderId == order.id
              && update.value.note == InitialNote(order) + Notes(config, order.id, order.lineItems, provider)
              && update.value.metafields == [CodesMetafield(Codes(config, order.id, order.lineItems, provider))]
    ensures update.Some? ==> InitialNote(order) <= update.value.note
    // a failed call ends the pass at that item, with no update
    ensures !completed ==>
              exists n :: 0 <= n < |order.lineItems|
                && ItemOutcome(config, order.id, order.lineItems[n], provider).Aborted?
                && NoCallFailed(config, order.id, order.lineItems[..n], provider)
                && requests == Requests(config, order.id, order.lineItems[..n + 1])
  {
    var items := order.lineItems;
    var orderNotes := InitialNote(order);
    var codesForDisplay := "";
    requests := [];
    for i := 0 to |items|
      invariant orderNotes == InitialNote(order) + Notes(config, order.id, items[..i], provider)
      invariant codesForDisplay == Codes(config, order.id, items[..i], provider)
      invariant requests == Requests(config, order.id, items[..i])
      invariant NoCallFailed(config, order.id, items[..i], provider)
    {
      var item := items[i];
      PassStep(config, order.id, items, i, provider);
      NoCallFailedStep(config, order.id, items, i, provider);
      if !HasSku(item) {
        continue;
      }
      var createOrderPayload := CreateOrderRequest(config, order.id, item);
      requests := requests + [createOrderPayload];
      var reply := provider(createOrderPayload);
      if reply.CallFailed? {
        // the exception leaves the loop; the catch swallows it
        update, completed := None, false;
        return;
      }
      var createOrderResponse := reply.response;
      var serialCode := FirstSerialCode(createOrderResponse);
      if Truthy(serialCode) {
        var productTitle := item.name;
        AppendAssoc(InitialNote(order), Notes(config, order.id, items[..i], provider),
          Rule + ProductLabel + productTitle + CodeLabel + serialCode.value + Rule);
        orderNotes := orderNotes + (Rule + ProductLabel + productTitle + CodeLabel + serialCode.value + Rule);
        codesForDisplay := codesForDisplay + (ProductLabel + productTitle + CodeLabel + serialCode.value + "\n\n");
      } else {
        AppendAssoc(InitialNote(order), Notes(config, order.id, items[..i], provider),
          FailureOpen + item.name + FailureClose);
        orderNotes := orderNotes + (FailureOpen + item.name + FailureClose);
      }
    }
    assert items[..|items|] == items;
    completed := true;
    CodesEmptyIffNoCode(config, order.id, items, provider);
    if codesForDisplay != "" {
      var metafields := [CodesMetafield(codesForDisplay)];
      update := Some(OrderUpdate(order.id, orderNotes, metafields));
    } else {
      update := None;
    }
  }

  /** The handler as written: at server.js:25 the initialiser of
      `createOrderResponse` reads `createOrderResponse` itself, which throws a
      ReferenceError before any request is sent; the catch at server.js:58-60
      swallows it.  The pass therefore ends at the first item with a SKU, and
      since only such items can add to the codes text, no update is ever issued. */
  method ProcessOrderAsWritten(order: ShopifyOrder)
    returns (update: Option<OrderUpdate>, requests: seq<CreateOrderPayload>, aborted: bool)
    ensures aborted <==> exists j :: 0 <= j < |order.lineItems| && HasSku(order.lineItems[j])
    ensures update.None? && requests == []
  {
    var items := order.lineItems;
    // only a received code would append to it, and none is ever received
    var codesForDisplay := "";
    requests := [];
    aborted := false;
    for i := 0 to |items|
      invariant !aborted && codesForDisplay == "" && requests == []
      invariant forall j :: 0 <= j < i ==> !HasSku(items[j])
    {
      if !HasSku(items[i]) {
        continue;
      }
      // ReferenceError: createOrderResponse is read before its initialisation.
      aborted := true;
      break;
    }
    // server.js:47: the update is guarded by a non-empty codes text
    if !aborted && codesForDisplay != "" {
      update := Some(OrderUpdate(order.id, InitialNote(order), [CodesMetafield(codesForDisplay)]));
    } else {
      update := None;
    }
  }

  /** An order the two readings of server.js:25 disagree on: one item with SKU
      "376", and a provider whose reply carries serial "ABC123".  As written
      the pass aborts at that item; as intended the item receives its code and
      the codes text is non-empty, so the update is issued. */
  lemma AsWrittenLosesReceivedCode(config: Config, provider: Provider)
    requires forall p :: provider(p) == Replied(CreateOrderResponse(Some([SerialEntry(Some("ABC123"))])))
    ensures HasSku(LineItem(7, Some("376"), "Card"))
    ensures ItemOutcome(config, 1001, LineItem(7, Some("376"), "Card"), provider) == CodeReceived("ABC123")
    ensures Codes(config, 1001, [LineItem(7, Some("376"), "Card")], provider) != ""
  {
  }

  /** On that order the two passes part: the intended pass completes and
      updates the order, the pass as written aborts and updates nothing. */
  method AsWrittenLosesUpdate(config: Config, provider: Provider)
    returns (intendedUpdated: bool, asWrittenUpdated: bool)
    requires forall p :: provider(p) == Replied(CreateOrderResponse(Some([SerialEntry(Some("ABC123"))])))
    ensures intendedUpdated && !asWrittenUpdated
  {
    var item := LineItem(7, Some("376"), "Card");
    var order := ShopifyOrder(1001, None, [item]);
    AsWrittenLosesReceivedCode(config, provider);
    assert !ItemOutcome(config, order.id, order.lineItems[0], provider).Aborted?;
    var update, _, completed := ProcessOrder(order, config, provider);
    assert completed;
    var update', _, aborted := ProcessOrderAsWritten(order);
    assert HasSku(order.lineItems[0]);
    assert aborted;
    intendedUpdated := update.Some?;
    asWrittenUpdated := update'.Some?;
  }
}
