/**
 * The per-user order conversation: a phase (`OrderStates`) and a scratch
 * dictionary (the FSM data), updated in place by the four message handlers
 * `start_command`, `product_id_received`, `quantity_received` and
 * `payment_proof_received`, plus the router that picks the handler.
 */
module Conversation {
  import opened Wrappers
  import opened Text
  import opened Catalog
  import opened Callbacks

  /** `OrderStates`; `Idle` is "no state set". */
  datatype Phase = Idle | WaitingProductId | WaitingQuantity | WaitingPaymentProof

  /** A value stored in the scratch dictionary. */
  datatype Value = Str(s: string) | Int(i: int) | Item(product: Product)

  /** An incoming message, as far as the router looks at it. */
  datatype Message =
    | StartCommand                  // `/start` or `/neworder`
    | TextMessage(text: string)     // any other text
    | PhotoMessage                  // a photo (it carries no text)
    | OtherMessage                  // any other content: sticker, document, ...

  /** What the bot sends in answer; the wording and HTML are not modelled. */
  datatype Reply =
    | Greeting                      // welcome and "enter the product id"
    | NoSuchProduct                 // unknown id: re-prompt
    | ShowProduct(product: Product) // the product post (or its text fallback) and "how many?"
    | DigitsOnly                    // "numbers only": re-prompt
    | RangePrompt(maxQuantity: nat) // "between 1 and max": re-prompt
    | PaymentRequest(card: string, total: nat, confirmData: string, rejectData: string)
                                    // card and total to the buyer; order with two buttons to the administrator
    | ProofReceived                 // photo forwarded to the administrator, buyer acknowledged
    | HandlerRaised                 // the handler raised before touching the state
    | Unhandled                     // no handler matched

  const PaymentCard := "9860 1701 0904 2573"

  const ProductIdKey := "product_id"
  const ProductKey := "product"
  const AdminMsgKey := "admin_msg_id"
  const QuantityKey := "quantity"
  const TotalKey := "total_price"
  const UserIdKey := "user_id"

  // -------------------------------------------------------------- quantity

  datatype QuantityCheck = NotANumber | NotInRange | InRange(quantity: nat)

  /**
   * `text.isdigit()`, then `1 <= int(text) <= max_quantity`: a quantity is
   * accepted exactly when the text is a digit string whose value lies in range.
   */
  function CheckQuantity(text: string, maxQuantity: nat): (r: QuantityCheck)
    ensures r.NotANumber? <==> !IsDigits(text)
    ensures r.InRange? <==> IsDigits(text) && 1 <= ParseDigits(text) <= maxQuantity
    ensures r.InRange? ==> r.quantity == ParseDigits(text) && 1 <= r.quantity <= maxQuantity
  {
    if !IsDigits(text) then NotANumber
    else
      var quantity := ParseDigits(text);
      if 1 <= quantity <= maxQuantity then InRange(quantity) else NotInRange
  }

  /** Every quantity in range, typed with or without leading zeros, is accepted as itself. */
  lemma {:induction false} CheckQuantityAcceptsInRange(quantity: nat, zeros: nat, maxQuantity: nat)
    requires 1 <= quantity <= maxQuantity
    ensures CheckQuantity(Zeros(zeros) + NatToString(quantity), maxQuantity) == InRange(quantity)
  {
    LeadingZeros(zeros, NatToString(quantity));
  }

  /** A quantity beyond the maximum is turned down, with or without leading zeros. */
  lemma {:induction false} CheckQuantityRejectsAboveMax(quantity: nat, zeros: nat, maxQuantity: nat)
    requires quantity > maxQuantity
    ensures CheckQuantity(Zeros(zeros) + NatToString(quantity), maxQuantity) == NotInRange
  {
    LeadingZeros(zeros, NatToString(quantity));
  }

  function Zeros(n: nat): (z: string)
    ensures |z| == n && AllDigits(z)
  {
    if n == 0 then [] else Zeros(n - 1) + "0"
  }

  /** Leading zeros do not change the value of a digit string. */
  lemma {:induction false} LeadingZeros(n: nat, s: string)
    requires AllDigits(s)
    ensures AllDigits(Zeros(n) + s) && ParseDigits(Zeros(n) + s) == ParseDigits(s)
  {
    if s != [] {
      var t := Zeros(n) + s;
      assert t[..|t| - 1] == Zeros(n) + s[..|s| - 1];
      LeadingZeros(n, s[..|s| - 1]);
    } else if n > 0 {
      assert Zeros(n) + s == Zeros(n);
      ZerosAreZero(n);
    }
  }

  lemma {:induction false} ZerosAreZero(n: nat)
    ensures ParseDigits(Zeros(n)) == 0
  {
    if n > 0 {
      var z := Zeros(n);
      assert z[..|z| - 1] == Zeros(n - 1);
      ZerosAreZero(n - 1);
    }
  }

  // ------------------------------------------------------------ invariant

  /** The scratch data holds a product id from the catalog and that product's record. */
  ghost predicate HasSnapshot(data: map<string, Value>, catalog: map<string, Product>) {
    && ProductIdKey in data && data[ProductIdKey].Str?
    && ProductKey in data && data[ProductKey].Item?
    && data[ProductIdKey].s in catalog
    && data[ProductKey].product == catalog[data[ProductIdKey].s]
  }

  /**
   * What the scratch data holds in each phase, with the catalog unchanged:
   * nothing before a product is chosen; the product id and its snapshot while
   * waiting for a quantity; then also the quantity (in range), the exact total,
   * the buyer's id and the administrator message id.
   */
  ghost predicate Consistent(phase: Phase, data: map<string, Value>, catalog: map<string, Product>) {
    match phase
    case Idle => data == map[]
    case WaitingProductId => data == map[]
    case WaitingQuantity =>
      data.Keys == {ProductIdKey, ProductKey} && HasSnapshot(data, catalog)
    case WaitingPaymentProof =>
      && data.Keys == {ProductIdKey, ProductKey, AdminMsgKey, QuantityKey, TotalKey, UserIdKey}
      && HasSnapshot(data, catalog)
      && data[AdminMsgKey].Int? && data[QuantityKey].Int? && data[TotalKey].Int? && data[UserIdKey].Int?
      && 1 <= data[QuantityKey].i <= data[ProductKey].product.maxQuantity
      && data[TotalKey].i == data[QuantityKey].i * data[ProductKey].product.price
  }

  /**
   * With the catalog unchanged, the administrator confirming the order a
   * conversation is waiting to be paid for recomputes exactly the total the
   * quantity step stored, for the same buyer, product and quantity.
   */
  lemma {:induction false} ConfirmAgreesWithStoredTotal(adminId: int, data: map<string, Value>, catalog: map<string, Product>)
    requires Consistent(WaitingPaymentProof, data, catalog) && KeysSplitSafe(catalog)
    ensures
      var id := data[ProductIdKey].s;
      ConfirmOrder(adminId, adminId, EncodeConfirm(data[UserIdKey].i, id, data[QuantityKey].i), catalog)
        == Confirmed(data[UserIdKey].i, id, catalog[id].name, data[QuantityKey].i, data[TotalKey].i)
  {
    ConfirmRoundTrip(adminId, data[UserIdKey].i, data[ProductIdKey].s, data[QuantityKey].i, catalog);
  }

  /** Storing a valid quantity, its total, the buyer and the admin message id keeps the data consistent. */
  lemma QuantityStepConsistent(data: map<string, Value>, catalog: map<string, Product>,
                               quantity: nat, userId: int, adminMsgId: int)
    requires Consistent(WaitingQuantity, data, catalog)
    requires 1 <= quantity <= data[ProductKey].product.maxQuantity
    ensures Consistent(WaitingPaymentProof,
      data[AdminMsgKey := Int(adminMsgId)][QuantityKey := Int(quantity)]
          [TotalKey := Int(quantity * data[ProductKey].product.price)][UserIdKey := Int(userId)],
      catalog)
  {
  }

  // ------------------------------------------------------- handler effects

  /**
   * `product_id_received`: the normalised id is looked up; an unknown id
   * changes nothing, a known one stores the id and its product record and
   * moves on to the quantity.
   */
  ghost predicate AfterProductId(data0: map<string, Value>, text: string, catalog: map<string, Product>,
                                 phase1: Phase, data1: map<string, Value>, reply: Reply) {
    var id := NormalizeProductId(text);
    if id in catalog then
      phase1 == WaitingQuantity && data1 == data0[ProductIdKey := Str(id)][ProductKey := Item(catalog[id])]
      && reply == ShowProduct(catalog[id])
    else
      phase1 == WaitingProductId && data1 == data0 && reply == NoSuchProduct
  }

  /**
   * `quantity_received`: non-digit or out-of-range text changes nothing; a
   * valid quantity stores it with its total, the buyer and the administrator
   * message id, leaves product id and snapshot as they were, sends the
   * confirm/reject buttons and moves on to the payment proof.
   */
  ghost predicate AfterQuantity(data0: map<string, Value>, text: string, userId: int, adminMsgId: int,
                                phase1: Phase, data1: map<string, Value>, reply: Reply)
    requires ProductIdKey in data0 && data0[ProductIdKey].Str?
    requires ProductKey in data0 && data0[ProductKey].Item?
  {
    var id := data0[ProductIdKey].s;
    var product := data0[ProductKey].product;
    match CheckQuantity(text, product.maxQuantity)
    case NotANumber =>
      phase1 == WaitingQuantity && data1 == data0 && reply == DigitsOnly
    case NotInRange =>
      phase1 == WaitingQuantity && data1 == data0 && reply == RangePrompt(product.maxQuantity)
    case InRange(quantity) =>
      var total := quantity * product.price;
      && phase1 == WaitingPaymentProof
      && data1 == data0[AdminMsgKey := Int(adminMsgId)][QuantityKey := Int(quantity)][TotalKey := Int(total)][UserIdKey := Int(userId)]
      && reply == PaymentRequest(PaymentCard, total, EncodeConfirm(userId, id, quantity), EncodeReject(userId))
  }

  // ---------------------------------------------------------------- router

  /** Which handler the dispatcher runs for a message in a phase. */
  datatype Handler =
    | StartHandler
    | ProductIdHandler
    | QuantityHandler
    | PaymentProofHandler
    | RaisesOnMissingText           // a text handler reached by a message without text
    | NoMatchingHandler

  /**
   * The command handler is registered first and matches in every phase; the
   * product-id and quantity handlers take any message in their phase; the
   * payment-proof handler takes photos only. Everything else is not handled.
   */
  function Route(phase: Phase, msg: Message): (h: Handler)
    ensures h.StartHandler? <==> msg.StartCommand?
    ensures h.ProductIdHandler? <==> phase == WaitingProductId && msg.TextMessage?
    ensures h.QuantityHandler? <==> phase == WaitingQuantity && msg.TextMessage?
    ensures h.PaymentProofHandler? <==> phase == WaitingPaymentProof && msg.PhotoMessage?
    ensures h.RaisesOnMissingText? <==>
      (phase == WaitingProductId || phase == WaitingQuantity) && (msg.PhotoMessage? || msg.OtherMessage?)
    ensures h.NoMatchingHandler? <==>
      !msg.StartCommand? && (phase == Idle || (phase == WaitingPaymentProof && !msg.PhotoMessage?))
  {
    if msg.StartCommand? then StartHandler
    else match phase
      case Idle => NoMatchingHandler
      case WaitingProductId => if msg.TextMessage? then ProductIdHandler else RaisesOnMissingText
      case WaitingQuantity => if msg.TextMessage? then QuantityHandler else RaisesOnMissingText
      case WaitingPaymentProof => if msg.PhotoMessage? then PaymentProofHandler else NoMatchingHandler
  }

  // ---------------------------------------------------------- the session

  /** One user's FSM context: the current phase and the scratch data. */
  class Conversation {
    var phase: Phase
    var data: map<string, Value>

    ghost predicate Valid(catalog: map<string, Product>)
      reads this
    {
      Consistent(phase, data, catalog)
    }

    /** A user the bot has not seen yet: no state, no data. */
    constructor ()
      ensures phase == Idle && data == map[]
    {
      phase := Idle;
      data := map[];
    }

    /** `start_command`: from any phase, drop the data and wait for a product id. */
    method Start() returns (reply: Reply)
      modifies this
      ensures phase == WaitingProductId && data == map[] && reply == Greeting
      ensures forall catalog :: Valid(catalog)
    {
      data := map[];
      phase := Idle;
      reply := Greeting;
      phase := WaitingProductId;
    }

    /** `product_id_received` */
    method ReceiveProductId(text: string, catalog: map<string, Product>) returns (reply: Reply)
      requires phase == WaitingProductId && Valid(catalog)
      modifies this
      ensures Valid(catalog)
      ensures AfterProductId(old(data), text, catalog, phase, data, reply)
    {
      var id := NormalizeProductId(text);
      if id !in catalog {
        reply := NoSuchProduct;
        return;
      }
      var product := catalog[id];
      reply := ShowProduct(product);
      data := data[ProductIdKey := Str(id)][ProductKey := Item(product)];
      phase := WaitingQuantity;
    }

    /** `quantity_received`; `userId` is the sender and `adminMsgId` the id of the message sent to the administrator. */
    method ReceiveQuantity(text: string, userId: int, adminMsgId: int, ghost catalog: map<string, Product>) returns (reply: Reply)
      requires phase == WaitingQuantity && Valid(catalog)
      modifies this
      ensures Valid(catalog)
      ensures AfterQuantity(old(data), text, userId, adminMsgId, phase, data, reply)
    {
      var product := data[ProductKey].product;
      match CheckQuantity(text, product.maxQuantity)
      case NotANumber =>
        reply := DigitsOnly;
      case NotInRange =>
        reply := RangePrompt(product.maxQuantity);
      case InRange(quantity) =>
        var total := quantity * product.price;
        var id := data[ProductIdKey].s;
        QuantityStepConsistent(data, catalog, quantity, userId, adminMsgId);
        reply := PaymentRequest(PaymentCard, total, EncodeConfirm(userId, id, quantity), EncodeReject(userId));
        data := data[AdminMsgKey := Int(adminMsgId)][QuantityKey := Int(quantity)][TotalKey := Int(total)][UserIdKey := Int(userId)];
        phase := WaitingPaymentProof;
    }

    /** `payment_proof_received`: a photo ends the conversation and clears the data. */
    method ReceivePaymentProof() returns (reply: Reply)
      requires phase == WaitingPaymentProof
      modifies this
      ensures phase == Idle && data == map[] && reply == ProofReceived
      ensures forall catalog :: Valid(catalog)
    {
      reply := ProofReceived;
      data := map[];
      phase := Idle;
    }

    /**
     * One incoming message from this user: route it and run the handler.
     * Messages no handler takes, and messages a handler raises on, leave the
     * phase and the data as they were.
     */
    method Handle(msg: Message, userId: int, adminMsgId: int, catalog: map<string, Product>) returns (reply: Reply)
      requires Valid(catalog)
      modifies this
      ensures Valid(catalog)
      ensures match Route(old(phase), msg)
        case StartHandler => phase == WaitingProductId && data == map[] && reply == Greeting
        case ProductIdHandler => AfterProductId(old(data), msg.text, catalog, phase, data, reply)
        case QuantityHandler => AfterQuantity(old(data), msg.text, userId, adminMsgId, phase, data, reply)
        case PaymentProofHandler => phase == Idle && data == map[] && reply == ProofReceived
        case RaisesOnMissingText => phase == old(phase) && data == old(data) && reply == HandlerRaised
        case NoMatchingHandler => phase == old(phase) && data == old(data) && reply == Unhandled
    {
      match Route(phase, msg)
      case StartHandler =>
        reply := Start();
      case ProductIdHandler =>
        reply := ReceiveProductId(msg.text, catalog);
      case QuantityHandler =>
        reply := ReceiveQuantity(msg.text, userId, adminMsgId, catalog);
      case PaymentProofHandler =>
        reply := ReceivePaymentProof();
      case RaisesOnMissingText =>
        reply := HandlerRaised;
      case NoMatchingHandler =>
        reply := Unhandled;
    }
  }

  lemma ScenarioLookup()
    ensures NormalizeProductId("mf1 ") == "MF1"
  {
    assert LeadingSpaces("mf1 ") == 0;
    assert Strip("mf1 ") == "mf1";
  }

  lemma ScenarioQuantity()
    ensures CheckQuantity("5", 20) == InRange(5)
  {
    assert ParseDigits("5") == 5 by { assert "5"[..0] == []; }
  }

  /**
   * A buyer orders five of MF1 (price 6000, at most 20), typing the id in lower
   * case with a trailing space, then sends the receipt photo; the administrator's
   * confirm button recomputes the same total of 30000.
   */
  method OrderScenario(adminId: int, buyer: int, adminMsgId: int)
  {
    ScenarioLookup();
    ScenarioQuantity();
    assert "MF1" in Products() && Products()["MF1"] == Product("Daraxt", 6000, 20, 454);
    var c := new Conversation();
    var reply := c.Handle(StartCommand, buyer, adminMsgId, Products());
    assert c.phase == WaitingProductId;
    reply := c.Handle(TextMessage("mf1 "), buyer, adminMsgId, Products());
    assert reply == ShowProduct(Product("Daraxt", 6000, 20, 454));
    reply := c.Handle(TextMessage("5"), buyer, adminMsgId, Products());
    assert c.phase == WaitingPaymentProof && reply.total == 30000;
    assert reply.confirmData == EncodeConfirm(buyer, "MF1", 5);
    ConfirmRoundTrip(adminId, buyer, "MF1", 5, Products());
    assert ConfirmOrder(adminId, adminId, reply.confirmData, Products()).total == 30000;
    reply := c.Handle(TextMessage("hello"), buyer, adminMsgId, Products());
    assert reply == Unhandled && c.phase == WaitingPaymentProof;
    reply := c.Handle(PhotoMessage, buyer, adminMsgId, Products());
    assert reply == ProofReceived && c.phase == Idle && c.data == map[];
  }
}
