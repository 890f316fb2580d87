/**
 * The administrator's inline buttons: the callback data the quantity step
 * writes (`confirm_{uid}_{pid}_{qty}`, `reject_{uid}`), and the two callback
 * handlers that split it on `_` again, gated on the administrator's id.
 */
module Callbacks {
  import opened Wrappers
  import opened Text
  import opened Catalog

  /** The exceptions the callback handlers can raise on data they cannot read. */
  datatype CallbackError =
    | WrongFieldCount(count: nat)   // ValueError: `split("_")` did not give exactly four pieces
    | MissingField                  // IndexError: `split("_")` gave a single piece
    | UnknownProduct(id: string)    // KeyError on `PRODUCTS[product_id]`
    | NotAnInteger(text: string)    // ValueError from `int(...)`

  /** The three fields of a confirm payload, as text, in the order they are unpacked. */
  datatype ConfirmFields = ConfirmFields(userId: string, productId: string, quantity: string)

  /** What a button press leads to. Network effects are not modelled; only what is sent to whom. */
  datatype CallbackOutcome =
    | NotAllowed                    // "Ruxsat yo'q" alert to a caller who is not the administrator
    | Confirmed(buyer: int, productId: string, name: string, quantity: int, total: int)
    | Rejected(buyer: int)
    | Failed(error: CallbackError)  // the handler raised; nothing is sent and the admin message is not edited
    | NoHandler                     // no callback handler matches the data

  const ConfirmPrefix := "confirm_"
  const RejectPrefix := "reject_"

  // ------------------------------------------------------------- encoding

  /** The confirm button's data: `f"confirm_{uid}_{pid}_{qty}"`. */
  function EncodeConfirm(userId: int, productId: string, quantity: int): (data: string)
    ensures StartsWith(data, ConfirmPrefix)
  {
    ConfirmPrefix + IntToString(userId) + "_" + productId + "_" + IntToString(quantity)
  }

  /** The reject button's data: `f"reject_{uid}"`. */
  function EncodeReject(userId: int): (data: string)
    ensures StartsWith(data, RejectPrefix)
  {
    RejectPrefix + IntToString(userId)
  }

  // ------------------------------------------------------------- decoding

  /**
   * `_, user_id, product_id, qty = data.split("_")`: succeeds exactly when the
   * data holds three underscores, and then the fields are pieces 1 to 3.
   */
  function DecodeConfirm(data: string): (r: Result<ConfirmFields, CallbackError>)
    ensures r.Ok? <==> Count(data, '_') == 3
    ensures r.Ok? ==> Split(data, '_') == [Split(data, '_')[0], r.value.userId, r.value.productId, r.value.quantity]
    ensures r.Ok? ==> '_' !in r.value.userId && '_' !in r.value.productId && '_' !in r.value.quantity
    ensures r.Err? ==> r.error == WrongFieldCount(Count(data, '_') + 1)
  {
    var parts := Split(data, '_');
    if |parts| != 4 then Err(WrongFieldCount(|parts|))
    else Ok(ConfirmFields(parts[1], parts[2], parts[3]))
  }

  /** `data.split("_")[1]`: the second piece, an IndexError when there is none. */
  function DecodeReject(data: string): (r: Result<string, CallbackError>)
    ensures r.Ok? <==> '_' in data
    ensures r.Ok? ==> r.value == Split(data, '_')[1]
    ensures r.Ok? ==> '_' !in r.value
    ensures r.Err? ==> r.error == MissingField
  {
    var parts := Split(data, '_');
    CountZero(data, '_');
    if |parts| < 2 then Err(MissingField) else Ok(parts[1])
  }

  // ------------------------------------------------------------- handlers

  /**
   * `confirm_order`: a caller other than the administrator gets the alert and
   * nothing is parsed; otherwise the payload is unpacked, the product looked
   * up in the catalog and the total recomputed from the catalog price.
   */
  function ConfirmOrder(adminId: int, caller: int, data: string, catalog: map<string, Product>): (r: CallbackOutcome)
    ensures r.NotAllowed? <==> caller != adminId
    ensures r.Confirmed? || r.NotAllowed? || r.Failed?
    ensures r.Confirmed? ==>
      && r.productId in catalog
      && r.name == catalog[r.productId].name
      && r.total == r.quantity * catalog[r.productId].price
      && DecodeConfirm(data).Ok?
      && DecodeConfirm(data).value.productId == r.productId
      && PyInt(DecodeConfirm(data).value.userId) == Some(r.buyer)
      && PyInt(DecodeConfirm(data).value.quantity) == Some(r.quantity)
    // The administrator's press fails exactly at the first step that raises.
    ensures caller == adminId && DecodeConfirm(data).Err? ==> r == Failed(DecodeConfirm(data).error)
    ensures caller == adminId && DecodeConfirm(data).Ok? && DecodeConfirm(data).value.productId !in catalog
      ==> r == Failed(UnknownProduct(DecodeConfirm(data).value.productId))
    ensures caller == adminId && DecodeConfirm(data).Ok? && DecodeConfirm(data).value.productId in catalog
      && PyInt(DecodeConfirm(data).value.quantity).None?
      ==> r == Failed(NotAnInteger(DecodeConfirm(data).value.quantity))
    ensures caller == adminId && DecodeConfirm(data).Ok? && DecodeConfirm(data).value.productId in catalog
      && PyInt(DecodeConfirm(data).value.quantity).Some? && PyInt(DecodeConfirm(data).value.userId).None?
      ==> r == Failed(NotAnInteger(DecodeConfirm(data).value.userId))
    // ... and is confirmed when no step raises.
    ensures caller == adminId && DecodeConfirm(data).Ok? && DecodeConfirm(data).value.productId in catalog
      && PyInt(DecodeConfirm(data).value.quantity).Some? && PyInt(DecodeConfirm(data).value.userId).Some?
      ==> r.Confirmed?
  {
    if caller != adminId then NotAllowed
    else match DecodeConfirm(data)
      case Err(e) => Failed(e)
      case Ok(fields) =>
        if fields.productId !in catalog then Failed(UnknownProduct(fields.productId))
        else
          var product := catalog[fields.productId];
          match PyInt(fields.quantity)
          case None => Failed(NotAnInteger(fields.quantity))
          case Some(quantity) =>
            var total := quantity * product.price;
            match PyInt(fields.userId)
            case None => Failed(NotAnInteger(fields.userId))
            case Some(buyer) => Confirmed(buyer, fields.productId, product.name, quantity, total)
  }

  /** `reject_order`: gated on the administrator; reads the buyer's id from the second piece. */
  function RejectOrder(adminId: int, caller: int, data: string): (r: CallbackOutcome)
    ensures r.NotAllowed? <==> caller != adminId
    ensures r.Rejected? || r.NotAllowed? || r.Failed?
    ensures r.Rejected? ==> DecodeReject(data).Ok? && PyInt(DecodeReject(data).value) == Some(r.buyer)
    ensures caller == adminId && DecodeReject(data).Err? ==> r == Failed(MissingField)
    ensures caller == adminId && DecodeReject(data).Ok? && PyInt(DecodeReject(data).value).None?
      ==> r == Failed(NotAnInteger(DecodeReject(data).value))
    ensures caller == adminId && DecodeReject(data).Ok? && PyInt(DecodeReject(data).value).Some?
      ==> r == Rejected(PyInt(DecodeReject(data).value).value)
  {
    if caller != adminId then NotAllowed
    else match DecodeReject(data)
      case Err(e) => Failed(e)
      case Ok(userId) =>
        match PyInt(userId)
        case None => Failed(NotAnInteger(userId))
        case Some(buyer) => Rejected(buyer)
  }

  /** The callback router: the confirm handler is registered first, then the reject handler. */
  function HandleCallback(adminId: int, caller: int, data: string, catalog: map<string, Product>): (r: CallbackOutcome)
    ensures r.NoHandler? <==> !StartsWith(data, ConfirmPrefix) && !StartsWith(data, RejectPrefix)
    ensures StartsWith(data, ConfirmPrefix) ==> r == ConfirmOrder(adminId, caller, data, catalog)
    ensures !StartsWith(data, ConfirmPrefix) && StartsWith(data, RejectPrefix) ==> r == RejectOrder(adminId, caller, data)
    ensures caller != adminId ==> r.NotAllowed? || r.NoHandler?
    ensures r.Confirmed? ==> StartsWith(data, ConfirmPrefix)
    ensures r.Rejected? ==> StartsWith(data, RejectPrefix)
  {
    if StartsWith(data, ConfirmPrefix) then ConfirmOrder(adminId, caller, data, catalog)
    else if StartsWith(data, RejectPrefix) then RejectOrder(adminId, caller, data)
    else NoHandler
  }

  // ---------------------------------------------------------- round trips

  /** The confirm data is the four pieces joined by `_`. */
  lemma EncodeConfirmIsJoin(userId: int, productId: string, quantity: int)
    ensures EncodeConfirm(userId, productId, quantity)
         == Join(["confirm", IntToString(userId), productId, IntToString(quantity)], '_')
  {
    var u, q := IntToString(userId), IntToString(quantity);
    var parts := ["confirm", u, productId, q];
    assert parts[1..] == [u, productId, q];
    assert [u, productId, q][1..] == [productId, q];
    assert [productId, q][1..] == [q];
    assert Join([productId, q], '_') == productId + "_" + q;
    assert Join([u, productId, q], '_') == u + "_" + (productId + "_" + q);
  }

  /**
   * Splitting the confirm data gives back the user id, product id and quantity
   * exactly when the product id holds no `_`; with one, unpacking fails.
   */
  lemma {:induction false} DecodeConfirmRoundTrip(userId: int, productId: string, quantity: int)
    ensures DecodeConfirm(EncodeConfirm(userId, productId, quantity)).Ok? <==> '_' !in productId
    ensures '_' !in productId ==>
      DecodeConfirm(EncodeConfirm(userId, productId, quantity))
        == Ok(ConfirmFields(IntToString(userId), productId, IntToString(quantity)))
  {
    var u, q := IntToString(userId), IntToString(quantity);
    var data := EncodeConfirm(userId, productId, quantity);
    EncodeConfirmIsJoin(userId, productId, quantity);
    CountZero(u, '_');
    CountZero(q, '_');
    CountZero(productId, '_');
    assert Count("confirm_", '_') == 1;
    assert Count("_", '_') == 1;
    CountConcat(ConfirmPrefix, u, '_');
    CountConcat(ConfirmPrefix + u, "_", '_');
    CountConcat(ConfirmPrefix + u + "_", productId, '_');
    CountConcat(ConfirmPrefix + u + "_" + productId, "_", '_');
    CountConcat(ConfirmPrefix + u + "_" + productId + "_", q, '_');
    assert Count(data, '_') == 3 + Count(productId, '_');
    if '_' !in productId {
      SplitJoin(["confirm", u, productId, q], '_');
    }
  }

  /** `reject_{uid}` read back by `split("_")[1]` and `int()` gives the user id. */
  lemma {:induction false} DecodeRejectRoundTrip(userId: int)
    ensures DecodeReject(EncodeReject(userId)) == Ok(IntToString(userId))
  {
    var u := IntToString(userId);
    assert EncodeReject(userId) == "reject" + "_" + u;
    SplitAtSeparator("reject", '_', u);
    SplitNoSeparator(u, '_');
  }

  /** The administrator pressing the reject button built for `userId` notifies that user. */
  lemma {:induction false} RejectRoundTrip(adminId: int, userId: int)
    ensures RejectOrder(adminId, adminId, EncodeReject(userId)) == Rejected(userId)
  {
    DecodeRejectRoundTrip(userId);
    IntToStringRoundTrip(userId);
  }

  /** Reject data is routed to the reject handler, never to the confirm handler. */
  lemma RejectDataRoutesToReject(adminId: int, caller: int, userId: int, catalog: map<string, Product>)
    ensures HandleCallback(adminId, caller, EncodeReject(userId), catalog) == RejectOrder(adminId, caller, EncodeReject(userId))
  {
    assert EncodeReject(userId)[0] == 'r';
  }

  /**
   * The administrator pressing the confirm button built for (`userId`,
   * `productId`, `quantity`) notifies that user with that product's name and
   * the total `quantity * price` recomputed from the catalog.
   */
  lemma {:induction false} ConfirmRoundTrip(adminId: int, userId: int, productId: string, quantity: int, catalog: map<string, Product>)
    requires productId in catalog && '_' !in productId
    ensures ConfirmOrder(adminId, adminId, EncodeConfirm(userId, productId, quantity), catalog)
         == Confirmed(userId, productId, catalog[productId].name, quantity, quantity * catalog[productId].price)
    ensures HandleCallback(adminId, adminId, EncodeConfirm(userId, productId, quantity), catalog)
         == Confirmed(userId, productId, catalog[productId].name, quantity, quantity * catalog[productId].price)
  {
    DecodeConfirmRoundTrip(userId, productId, quantity);
    IntToStringRoundTrip(userId);
    IntToStringRoundTrip(quantity);
  }

  /** A confirm or reject press by anyone but the administrator yields the alert alone. */
  lemma NonAdminPressIsRefused(adminId: int, caller: int, data: string, catalog: map<string, Product>)
    requires caller != adminId
    requires StartsWith(data, ConfirmPrefix) || StartsWith(data, RejectPrefix)
    ensures HandleCallback(adminId, caller, data, catalog) == NotAllowed
  {
  }
}
