/** The `/whatsapp-webhook` handler of the WhatsApp service: from a Shopify
    order it picks a phone number, composes one Arabic status message (header,
    payment line, fulfilment line, and for digital orders the order note) and
    sends it once.  The send is returned, not performed. */
module WhatsApp {
  import opened Wrappers
  import opened Text

  // ---------------------------------------------------------------------------
  // Data model

  datatype Address = Address(phone: Option<string>)

  /** The part of a Shopify line item the handler reads. */
  datatype LineItem = LineItem(productType: Option<string>, title: string)

  /** The part of a Shopify order payload the handler reads. */
  datatype Order = Order(
    name: string,
    shippingAddress: Option<Address>, billingAddress: Option<Address>,
    financialStatus: Option<string>, fulfillmentStatus: Option<string>,
    totalPrice: string, currency: string,
    note: Option<string>, lineItems: seq<LineItem>)

  /** The arguments of one `sendWhatsAppMessage(phone, message)` call. */
  datatype Message = Message(phone: string, body: string)

  // ---------------------------------------------------------------------------
  // Constants of the handler

  const HeaderOpen: string := "📦 تحديث طلبك #"
  const CreatedOpen: string := "✅ تم إنشاء طلبك بنجاح.\nالإجمالي: "
  const PaidOpen: string := "💳 تم استلام الدفع بنجاح.\nالمبلغ: "
  const ShippedLine: string := "\n🚚 تم شحن طلبك."
  const FulfilledLine: string := "\n🎉 تم اكتمال طلبك."
  const NoteOpen: string := "\n🔑 "
  const DefaultNote: string := "سيتم إرسال الرموز الخاصة بك لاحقاً."
  const DefaultStatus: string := "pending"
  const DefaultFulfillment: string := "unfulfilled"
  const DigitalType: string := "Digital"
  const LikeCardMarker: string := "LikeCard"

  // ---------------------------------------------------------------------------
  // Phone, statuses, digital test

  /** `address?.phone` */
  function AddressPhone(address: Option<Address>): Option<string> {
    if address.Some? then address.value.phone else None
  }

  /** `shipping_address?.phone || billing_address?.phone`, kept only when truthy:
      the shipping phone when it is set, else the billing phone, else nothing. */
  function SelectPhone(order: Order): (r: Option<string>)
    ensures r.Some? <==>
              Truthy(AddressPhone(order.shippingAddress)) || Truthy(AddressPhone(order.billingAddress))
    ensures r.Some? ==> r.value != ""
    ensures Truthy(AddressPhone(order.shippingAddress)) ==> r == AddressPhone(order.shippingAddress)
    ensures !Truthy(AddressPhone(order.shippingAddress)) && Truthy(AddressPhone(order.billingAddress)) ==>
              r == AddressPhone(order.billingAddress)
  {
    var shipping := AddressPhone(order.shippingAddress);
    var billing := AddressPhone(order.billingAddress);
    if Truthy(shipping) then shipping
    else if Truthy(billing) then billing
    else None
  }

  /** `financial_status || "pending"` */
  function FinancialStatus(order: Order): (s: string)
    ensures !Truthy(order.financialStatus) ==> s == DefaultStatus
    ensures Truthy(order.financialStatus) ==> s == order.financialStatus.value
  {
    OrElse(order.financialStatus, DefaultStatus)
  }

  /** `fulfillment_status || "unfulfilled"` */
  function FulfillmentStatus(order: Order): (s: string)
    ensures !Truthy(order.fulfillmentStatus) ==> s == DefaultFulfillment
    ensures Truthy(order.fulfillmentStatus) ==> s == order.fulfillmentStatus.value
  {
    OrElse(order.fulfillmentStatus, DefaultFulfillment)
  }

  predicate IsDigitalLine(line: LineItem) {
    line.productType == Some(DigitalType) || Includes(line.title, LikeCardMarker)
  }

  /** `line_items.some(isDigitalLine)`, scanning from the first line. */
  function SomeDigital(lines: seq<LineItem>): bool {
    if lines == [] then false
    else IsDigitalLine(lines[0]) || SomeDigital(lines[1..])
  }

  /** An order is digital exactly when one of its lines has product type
      "Digital" or a title in which "LikeCard" occurs. */
  lemma {:induction false} SomeDigitalIff(lines: seq<LineItem>)
    ensures SomeDigital(lines) <==>
              exists j :: 0 <= j < |lines|
                && (lines[j].productType == Some(DigitalType) || IsInfix(LikeCardMarker, lines[j].title))
  {
    if lines != [] {
      SomeDigitalIff(lines[1..]);
      IncludesIsInfix(lines[0].title, LikeCardMarker);
      assert forall j :: 1 <= j < |lines| ==> lines[j] == lines[1..][j - 1];
      if exists j :: 0 <= j < |lines|
          && (lines[j].productType == Some(DigitalType) || IsInfix(LikeCardMarker, lines[j].title))
      {
        var j :| 0 <= j < |lines|
          && (lines[j].productType == Some(DigitalType) || IsInfix(LikeCardMarker, lines[j].title));
        if j > 0 {
          assert lines[1..][j - 1] == lines[j];
        }
      }
    }
  }

  // ---------------------------------------------------------------------------
  // Message segments

  /** First line of every message, ending in a newline. */
  function Header(order: Order): string {
    HeaderOpen + order.name + "\n"
  }

  function CreatedLine(order: Order): string {
    CreatedOpen + order.totalPrice + " " + order.currency
  }

  function PaidLine(order: Order): string {
    PaidOpen + order.totalPrice + " " + order.currency
  }

  /** The `if pending … else if paid …` segment. */
  function PaymentSegment(status: string, order: Order): string {
    if status == "pending" then CreatedLine(order)
    else if status == "paid" then PaidLine(order)
    else ""
  }

  /** The two independent `if shipped`, `if fulfilled` appends. */
  function FulfillmentSegment(fulfillment: string): string {
    (if fulfillment == "shipped" then ShippedLine else "")
      + (if fulfillment == "fulfilled" then FulfilledLine else "")
  }

  /** For a digital order, the note or, when it is falsy, the default text. */
  function NoteSegment(order: Order): string {
    if SomeDigital(order.lineItems) then NoteOpen + OrElse(order.note, DefaultNote) else ""
  }

  /** The message the handler sends, if it finds a phone. */
  function Compose(order: Order): (r: Option<Message>)
    ensures r.Some? <==> SelectPhone(order).Some?
    ensures r.Some? ==> r.value.phone == SelectPhone(order).value
  {
    match SelectPhone(order)
    case None => None
    case Some(phone) =>
      Some(Message(phone,
        Header(order)
        + PaymentSegment(FinancialStatus(order), order)
        + FulfillmentSegment(FulfillmentStatus(order))
        + NoteSegment(order)))
  }

  /** Exactly one of: the "created" line for "pending", the "paid" line for
      "paid", nothing for any other status. */
  lemma PaymentSegmentCases(status: string, order: Order)
    ensures CreatedLine(order) != PaidLine(order)
    ensures PaymentSegment(status, order) == CreatedLine(order) <==> status == "pending"
    ensures PaymentSegment(status, order) == PaidLine(order) <==> status == "paid"
    ensures PaymentSegment(status, order) == "" <==> status != "pending" && status != "paid"
  {
    assert CreatedLine(order)[0] == CreatedOpen[0];
    assert PaidLine(order)[0] == PaidOpen[0];
  }

  /** At most one fulfilment line: "shipped" adds the shipped line, "fulfilled"
      the fulfilled line, any other status nothing. */
  lemma FulfillmentSegmentCases(fulfillment: string)
    ensures ShippedLine != FulfilledLine
    ensures FulfillmentSegment(fulfillment) == ShippedLine <==> fulfillment == "shipped"
    ensures FulfillmentSegment(fulfillment) == FulfilledLine <==> fulfillment == "fulfilled"
    ensures FulfillmentSegment(fulfillment) == "" <==> fulfillment != "shipped" && fulfillment != "fulfilled"
  {
  }

  /** Layout of a sent message: it starts with the header; the payment segment
      comes before the fulfilment segment; a digital order's message ends with
      the note (or the default text), and a non-digital order's message holds
      no note segment at all. */
  lemma MessageLayout(order: Order)
    requires Compose(order).Some?
    ensures var body := Compose(order).value.body;
      var pay := PaymentSegment(FinancialStatus(order), order);
      var ful := FulfillmentSegment(FulfillmentStatus(order));
      && Header(order) <= body
      && Header(order)[|Header(order)| - 1] == '\n'
      && Header(order) + pay <= body
      && body[|Header(order) + pay|..] == ful + NoteSegment(order)
      && (SomeDigital(order.lineItems) ==>
            var note := OrElse(order.note, DefaultNote);
            |body| >= |note| && body[|body| - |note|..] == note
            && (!Truthy(order.note) ==> note == DefaultNote))
      && (!SomeDigital(order.lineItems) ==> body == Header(order) + pay + ful)
  {
    var body := Compose(order).value.body;
    var pay := PaymentSegment(FinancialStatus(order), order);
    var ful := FulfillmentSegment(FulfillmentStatus(order));
    var header := Header(order);
    AppendAssoc(header, pay, ful + NoteSegment(order));
    AppendAssoc(header + pay, ful, NoteSegment(order));
    ConcatSplit(header, pay);
    ConcatSplit(header + pay, ful + NoteSegment(order));
    if SomeDigital(order.lineItems) {
      var note := OrElse(order.note, DefaultNote);
      AppendAssoc(header + pay + ful, NoteOpen, note);
      ConcatSplit(header + pay + ful + NoteOpen, note);
    } else {
      AppendEmpty(header + pay + ful);
    }
  }

  // ---------------------------------------------------------------------------
  // The handler

  /** The handler body: returns the messages sent, in order.  It sends exactly
      one message when a phone is found and none otherwise, and that message is
      the one `Compose` describes. */
  method HandleWhatsAppWebhook(order: Order) returns (sent: seq<Message>)
    ensures |sent| <= 1
    ensures |sent| == 1 <==> SelectPhone(order).Some?
    ensures sent == if Compose(order).Some? then [Compose(order).value] else []
  {
    var shipping := AddressPhone(order.shippingAddress);
    var phone := if Truthy(shipping) then shipping else AddressPhone(order.billingAddress);
    if !Truthy(phone) {
      return [];
    }

    var status := OrElse(order.financialStatus, DefaultStatus);
    var fulfillment := OrElse(order.fulfillmentStatus, DefaultFulfillment);
    var isDigital := SomeDigital(order.lineItems);

    var message := HeaderOpen + order.name + "\n";
    if status == "pending" {
      message := message + (CreatedOpen + order.totalPrice + " " + order.currency);
    } else if status == "paid" {
      message := message + (PaidOpen + order.totalPrice + " " + order.currency);
    }
    ghost var upToPayment := message;
    assert upToPayment == Header(order) + PaymentSegment(status, order);
    if fulfillment == "shipped" {
      message := message + ShippedLine;
    }
    if fulfillment == "fulfilled" {
      message := message + FulfilledLine;
    }
    assert message == upToPayment + FulfillmentSegment(fulfillment);
    ghost var upToFulfillment := message;
    if isDigital {
      var note := OrElse(order.note, DefaultNote);
      message := message + (NoteOpen + note);
    }
    assert message == upToFulfillment + NoteSegment(order);
    sent := [Message(phone.value, message)];
  }
}
