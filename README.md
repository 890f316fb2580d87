# savdo-bot order conversation, modelled in Dafny

This project models the ordering core of `savdo.py`, a Telegram shop bot. A
buyer sends `/start` (or `/neworder`), types a product id, then a quantity,
and finally sends a photo of the payment receipt. The administrator is sent
the order with two inline buttons: "confirm" and "reject". Each button carries
callback data that the bot later splits on `_` to recover the buyer, the
product and the quantity.

The model has five modules:

- `Wrappers`: `Option` and `Result`.
- `Text`: the Python string operations the bot uses, over ASCII text.
  - `str.isdigit` is `IsDigits`, `str.strip` is `Strip`, `str.upper` is `Upper`.
  - `str.split("_")` is `Split`, with `Join` as its inverse.
  - `int(str)` is `PyInt`, `str(int)` is `IntToString`.
- `Catalog`: the `Product` record, the constant catalog `Products` (`PRODUCTS`)
  and the normalisation of a typed product id (`strip().upper()`).
- `Callbacks`: the callback-data encoders `EncodeConfirm` / `EncodeReject`,
  their decoders, and the handlers `confirm_order` / `reject_order` as pure
  functions. Both handlers are gated on the administrator's id, and the
  callback router picks between them.
- `Conversation`: the per-user FSM context as a class `Conversation`.
  - The class holds a `phase` (`OrderStates`) and a `data` map (the FSM
    scratch dictionary).
  - Each of the four message handlers is a method that updates both in place.
  - `Handle` is the message router.
  - `Consistent` states what the data holds in each phase; every handler
    preserves it.

The administrator's id, the sender's id and the id of the message sent to the
administrator are parameters: they come from configuration or from the
network. The catalog is a parameter of the handlers, and `Products` is the
value the bot uses. A conversation is `Valid(catalog)` for one fixed catalog,
which is the "catalog unchanged" assumption behind `ConfirmAgreesWithStoredTotal`.

The confirm button carries `confirm_{uid}_{pid}_{qty}`. `confirm_order`
recomputes the total from the catalog's current price. The buttons change no
conversation state.

A photo received while waiting for the payment proof clears the state. A
non-text message reaching the product-id or quantity handler raises before
any state is touched. It is modelled as the reply `HandlerRaised`, with the
state unchanged.

## Model

| member | source | states |
|---|---|---|
| `Text.NatToString` | savdo.py:115 | `str(n)` of a natural number is a non-empty digit string whose decimal value is `n`; it has a single digit or no leading zero, so `str(0)` is `0` |
| `Text.IsDigits` | savdo.py:91 | `isdigit()`: a digit string is non-empty and holds no whitespace, sign or `_` |
| `Text.ParseDigits` | savdo.py:95 | `int()` of a digit string is its decimal value, and it is zero iff every digit is `0` |
| `Text.StartsWith` | savdo.py:153 | `startswith(prefix)` holds iff the data is the prefix followed by the rest of the data |
| `Text.IntToString` | savdo.py:115 | `str(i)` is non-empty and holds only digits after an optional leading `-`, so it never contains `_` or whitespace |
| `Text.Strip` | savdo.py:60 | `strip()` returns the slice of the input between its leading and trailing whitespace; the result neither starts nor ends with whitespace |
| `Text.Upper` | savdo.py:60 | `upper()` keeps the length and upper-cases each ASCII letter in place |
| `Text.Split` | savdo.py:158 | `split("_")` gives one piece more than there are separators; no piece holds `_`; joining the pieces with `_` gives the input back |
| `Text.SplitJoin` | savdo.py:158 | splitting a `_`-joined list of `_`-free pieces returns exactly those pieces |
| `Text.PyInt` | savdo.py:160 | `int(s)` succeeds iff the stripped text is a digit string, optionally after one `+` or `-`; the value is that of the digits, negated after `-` |
| `Text.IntToStringRoundTrip` | savdo.py:160 | `int(str(i)) == i` for every integer `i` |
| `Catalog.Products` | savdo.py:26-31 | `PRODUCTS` holds exactly MF1 to MF4; no id holds `_`, and every product has a positive price and a positive maximum quantity |
| `Catalog.ProductsNormalised` | savdo.py:26-31 | every product id of `PRODUCTS` is already normalised, so typing it exactly finds it |
| `Catalog.NormalizeProductId` | savdo.py:60 | the normalised id is the stripped text upper-cased character by character; it has no surrounding whitespace and no lower-case ASCII letter |
| `Catalog.NormalizedIsFixed` | savdo.py:60 | an id without surrounding whitespace or lower-case letters normalises to itself |
| `Catalog.NormalizeIdempotent` | savdo.py:60 | normalising twice equals normalising once |
| `Callbacks.EncodeConfirm` | savdo.py:115 | the confirm data starts with `confirm_`, which is what routes it to `confirm_order` |
| `Callbacks.EncodeReject` | savdo.py:119 | the reject data starts with `reject_`, which is what routes it to `reject_order` |
| `Callbacks.EncodeConfirmIsJoin` | savdo.py:115 | the confirm data is `confirm`, the user id, the product id and the quantity joined by `_` |
| `Callbacks.DecodeConfirm` | savdo.py:158 | unpacking into four names succeeds iff the data holds exactly three `_`, and then the fields are pieces 1 to 3 of `split("_")`; otherwise it is the ValueError with the actual piece count |
| `Callbacks.DecodeReject` | savdo.py:178 | `split("_")[1]` exists iff the data holds a `_`, and then it is that second piece; otherwise it is the IndexError |
| `Callbacks.DecodeConfirmRoundTrip` | savdo.py:115-158 | decoding the encoded confirm data succeeds iff the product id has no `_`, and then returns exactly `str(uid)`, the product id and `str(qty)` |
| `Callbacks.DecodeRejectRoundTrip` | savdo.py:178 | the second piece of `reject_{uid}` is exactly `str(uid)` |
| `Callbacks.ConfirmOrder` | savdo.py:154-160 | the result is the alert iff the caller is not the administrator; for the administrator, the press fails with the error of the first step that raises (unpacking, catalog lookup, `int(qty)`, `int(user_id)`) and is confirmed iff none raises; a confirmation names a catalog product, its name, and total = quantity × catalog price, read back from the decoded payload |
| `Callbacks.RejectOrder` | savdo.py:174-179 | the result is the alert iff the caller is not the administrator; for the administrator, a missing second piece is the IndexError, an unparsable one the ValueError, and otherwise the buyer parsed from it is told of the rejection |
| `Callbacks.HandleCallback` | savdo.py:153-176 | data starting with `confirm_` runs `confirm_order`; other data starting with `reject_` runs `reject_order`; no handler runs iff the data starts with neither prefix; a non-administrator gets at most the alert |
| `Callbacks.ConfirmRoundTrip` | savdo.py:155-160 | the administrator pressing the confirm button for (uid, pid, qty), with pid in the catalog and free of `_`, confirms to uid with pid's name and total qty × price |
| `Callbacks.RejectRoundTrip` | savdo.py:175-179 | the administrator pressing the reject button for uid rejects to exactly uid |
| `Callbacks.RejectDataRoutesToReject` | savdo.py:153-173 | reject data never matches the confirm handler's prefix, so it reaches `reject_order` |
| `Callbacks.NonAdminPressIsRefused` | savdo.py:155-176 | any confirm or reject press by a non-administrator yields only the alert, whatever the payload |
| `Conversation.CheckQuantity` | savdo.py:91-101 | the text is refused as not a number iff it is not a digit string; it is accepted iff it is a digit string whose value lies in [1, max], and then the accepted quantity is that value |
| `Conversation.CheckQuantityAcceptsInRange` | savdo.py:95-99 | every in-range quantity, written in decimal with any number of leading zeros, is accepted as that quantity |
| `Conversation.CheckQuantityRejectsAboveMax` | savdo.py:99-101 | a quantity above the maximum, with any number of leading zeros, is refused as out of range |
| `Conversation.LeadingZeros` | savdo.py:95 | leading zeros do not change the value `int()` reads from a digit string |
| `Conversation.QuantityStepConsistent` | savdo.py:134-140 | storing an in-range quantity, its total at the snapshot's price, the buyer and the admin message id turns a consistent quantity-phase record into a consistent payment-phase one |
| `Conversation.ConfirmAgreesWithStoredTotal` | savdo.py:103-160 | for a conversation waiting for the payment proof, with the catalog unchanged, the administrator's confirm recomputes exactly the stored total, for the stored buyer, product and quantity |
| `Conversation.Route` | savdo.py:46-143 | the start command matches in every phase; text reaches the product-id and quantity handlers only in their phases; photos reach the payment handler only while it waits for the proof; non-text in a text phase raises; everything else is unhandled |
| `Conversation.Conversation.constructor` | savdo.py:35 | a user the storage has not seen has no phase and empty data |
| `Conversation.Conversation.Start` | savdo.py:46-55 | from any phase: the data is discarded and the phase becomes "waiting for product id"; the result is consistent for every catalog |
| `Conversation.Conversation.ReceiveProductId` | savdo.py:58-86 | unknown normalised id: phase and data unchanged, re-prompt; known id: the id and its product record are stored, phase "waiting for quantity"; consistency preserved |
| `Conversation.Conversation.ReceiveQuantity` | savdo.py:89-140 | non-digit or out-of-range text: phase and data unchanged; valid quantity: quantity, total = quantity × snapshot price, buyer id and admin message id added, product id and snapshot untouched, confirm/reject data built from them, phase "waiting for payment proof"; consistency preserved |
| `Conversation.Conversation.ReceivePaymentProof` | savdo.py:143-150 | a photo clears the data and returns to no phase |
| `Conversation.Conversation.Handle` | savdo.py:46-150 | each message runs the handler `Route` picks, with that handler's effect; unhandled and raising messages leave phase and data unchanged; consistency preserved |

## Left out

- The bot framework: the dispatcher, the `MemoryStorage` internals and long polling. Only "which handler runs for (phase, kind of message)" is modelled, as `Route`.
- Recognising `/start` and `/neworder` is the framework's `Command` filter. The model receives it already recognised, as `StartCommand`.
- All network calls are left out: forwarding the product post and its text fallback, sending and editing messages, answering callbacks. The replies only say what would be sent. The fallback does not affect state.
- Every network call is assumed to succeed. In the source a call that raises aborts its handler part-way, which the model does not capture:
  - `start_command`: a failing `message.answer` (savdo.py:49) runs after `state.clear()`, so the user is left with no state instead of waiting for a product id.
  - `product_id_received`: a failing `message.answer` (savdo.py:80) skips the update at savdo.py:85-86.
  - `quantity_received`: a failing `bot.send_message` (savdo.py:123) leaves phase and data unchanged, although the buyer already got the payment request (savdo.py:105).
  - `payment_proof_received`: a failing `bot.forward_message` (savdo.py:147) leaves the state uncleared.
- Reading `BOT_TOKEN`, `CHANNEL_ID` and `ADMIN_ID` from the environment, and the startup check. The administrator's id is a parameter. In the source, `int(os.getenv("ADMIN_ID"))` runs before the emptiness check, so a missing id fails with a different error.
- Display formatting: the HTML markup and the thousands separators of prices.
- Unicode: digits, whitespace and upper-casing are ASCII only. Python's `str.isdigit`, `str.strip`, `str.upper` and `int()` also accept or change non-ASCII characters.
- Text.PyInt: does not accept the underscores Python's `int()` allows between digits. Its input is always a piece of `split("_")`, which never holds one.
- `admin_adding_product`: the state is declared but never used.
- Concurrency: handlers are assumed to run one at a time per user.
- After a handled press the source removes both buttons (savdo.py:169, :180), an effect the model does not capture; the handlers themselves do not guard against a second press.
