/** The success page: it finds the payment-intent id in the return URL, reads the
    intent back from Stripe (a parameter here) and shows the summary recorded in
    its metadata. Both outcomes carry the script that removes the stored cart. */
module Success {
  import opened Common
  import Cart
  import PaymentIntent
  import OrderMath

  /** A query value: absent, a single string, or repeated (an array). */
  datatype Param = Absent | Single(s: string) | Repeated(values: seq<string>)

  datatype SearchParams = SearchParams(payment_intent: Param, payment_intent_client_secret: Param)

  const SECRET_MARKER: string := "_secret_"

  /** `payment_intent` when it is a non-empty string, else the id part of the
      client secret when that is a string; `Some("")` and `None` are both falsy. */
  function PiId(p: SearchParams): (r: Option<string>)
    ensures p.payment_intent.Single? && p.payment_intent.s != "" ==> r == Some(p.payment_intent.s)
    ensures !(p.payment_intent.Single? && p.payment_intent.s != "") ==>
              (r.Some? <==> p.payment_intent_client_secret.Single?)
    ensures r.Some? && !(p.payment_intent.Single? && p.payment_intent.s != "") ==>
              (p.payment_intent_client_secret.Single?
               && |r.value| <= |p.payment_intent_client_secret.s|
               && r.value == p.payment_intent_client_secret.s[..|r.value|])
  {
    if p.payment_intent.Single? && p.payment_intent.s != "" then Some(p.payment_intent.s)
    else if p.payment_intent_client_secret.Single? then
      Some(PrefixBefore(p.payment_intent_client_secret.s, SECRET_MARKER))
    else None
  }

  /** An id the secret marker cannot be found in or straddle: no `_secret_` inside
      and no underscore among its last seven characters (Stripe's `pi_...` ids). */
  predicate MarkerFree(id: string) {
    !Contains(id, SECRET_MARKER) && forall i :: 0 <= i < |id| && |id| - 7 <= i ==> id[i] != '_'
  }

  /** A client secret `<id>_secret_<rest>` gives back its id. */
  lemma SecretGivesId(id: string, rest: string)
    requires MarkerFree(id)
    ensures PrefixBefore(id + SECRET_MARKER + rest, SECRET_MARKER) == id
  {
    var s := id + SECRET_MARKER + rest;
    assert s[|id|..|id| + 8] == SECRET_MARKER;
    assert OccursAt(s, SECRET_MARKER, |id|);
    forall j | 0 <= j < |id|
      ensures !OccursAt(s, SECRET_MARKER, j)
    {
      if j + 8 <= |id| {
        assert s[j..j + 8] == id[j..j + 8];
        assert !OccursAt(id, SECRET_MARKER, j);
      } else {
        assert s[j] == id[j] == '_' ==> false;
      }
    }
    var k := IndexOf(s, SECRET_MARKER);
    assert k == Some(|id|);
    var r := PrefixBefore(s, SECRET_MARKER);
    assert OccursAt(s, SECRET_MARKER, |r|);
    assert |r| == |id|;
    assert r == s[..|id|] == id;
  }

  /** The cart metadata as `JSON.parse` sees it: missing or empty, not parseable
      (the page catches the error), or a list of objects with the keys present. */
  datatype CartJson = NoCart | Unparseable | Items(items: seq<ItemJson>)

  datatype ItemJson = ItemJson(
    productId: Option<string>, name: Option<string>, qty: Option<int>,
    quantity: Option<int>, price: Option<int>)

  datatype Meta = Meta(subtotal: Option<string>, shipping: Option<string>, tax: Option<string>, cart: CartJson)

  /** The retrieved intent: the fields the page reads. */
  datatype Intent = Intent(currency: Option<string>, amount: Option<int>, metadata: Option<Meta>)

  /** `Number(s ?? 0)` for the integer strings the payment route writes; any
      other string is NaN. */
  function MetaNumber(s: Option<string>): (r: JsNum)
    ensures s.None? ==> r == Finite(0.0)
  {
    match s
    case None => Finite(0.0)
    case Some(t) =>
      match IntegerNumber(t)
      case Some(n) => Finite(n as real)
      case None => NonFinite
  }

  /** The shipping cell: "Free" exactly when the number is 0. */
  datatype ShipCell = Free | Amount(n: JsNum)

  function ShipCellOf(n: JsNum): (r: ShipCell)
    ensures r == Free <==> n == Finite(0.0)
    ensures r != Free ==> r == Amount(n)
  {
    if n == Finite(0.0) then Free else Amount(n)
  }

  /** One line of the order summary; `price` is None where "--" is shown. */
  datatype Row = Row(name: string, qty: int, price: Option<int>)

  /** How the page shows a parsed item, as written: its name or "Item",
      `max(1, qty ?? 1)`, and its price when there is one. */
  function RowOf(it: ItemJson): (r: Row)
    ensures r.qty >= 1 && r.price == it.price
    ensures r.name == it.name.GetOr("Item")
    ensures it.qty.Some? && it.qty.value >= 1 ==> r.qty == it.qty.value
    ensures it.qty.None? ==> r.qty == 1
  {
    Row(it.name.GetOr("Item"), Max(1, it.qty.GetOr(1)), it.price)
  }

  function ItemsOf(c: CartJson): seq<ItemJson> {
    if c.Items? then c.items else []
  }

  /** Both outcomes carry the key their script removes from local storage. */
  datatype Page =
    | MissingReference(cleared: string)
    | Summary(cleared: string, currency: string, total: int, subtotal: JsNum, shipping: ShipCell, tax: JsNum, rows: seq<Row>)

  /** The local-storage key the page's script removes: the cart's own key. */
  const CLEARED_KEY: string := "how_cart_v1"

  /** The rendered page for a query and what Stripe returns for an id, as
      written: each row through `RowOf`. */
  function SuccessPage(p: SearchParams, retrieve: string -> Intent): (r: Page)
    ensures r.MissingReference? <==> !Truthy(PiId(p))
    ensures r.cleared == CLEARED_KEY
    ensures r.Summary? ==>
              var pi := retrieve(PiId(p).value);
              var meta := pi.metadata.GetOr(Meta(None, None, None, NoCart));
              && r.currency == Upper(OrElse(pi.currency, "usd"))
              && r.total == pi.amount.GetOr(0)
              && r.subtotal == MetaNumber(meta.subtotal)
              && r.shipping == ShipCellOf(MetaNumber(meta.shipping))
              && r.tax == MetaNumber(meta.tax)
              && |r.rows| == |ItemsOf(meta.cart)|
              && forall i :: 0 <= i < |r.rows| ==> r.rows[i] == RowOf(ItemsOf(meta.cart)[i])
  {
    PageWith(p, retrieve, RowOf)
  }

  /** The same page with the rows read through `RowOfCorrected`. */
  function SuccessPageCorrected(p: SearchParams, retrieve: string -> Intent): (r: Page)
    ensures r.MissingReference? <==> !Truthy(PiId(p))
    ensures r.cleared == CLEARED_KEY
    ensures r.Summary? ==>
              var pi := retrieve(PiId(p).value);
              var meta := pi.metadata.GetOr(Meta(None, None, None, NoCart));
              && r.currency == Upper(OrElse(pi.currency, "usd"))
              && r.total == pi.amount.GetOr(0)
              && r.subtotal == MetaNumber(meta.subtotal)
              && r.shipping == ShipCellOf(MetaNumber(meta.shipping))
              && r.tax == MetaNumber(meta.tax)
              && |r.rows| == |ItemsOf(meta.cart)|
              && forall i :: 0 <= i < |r.rows| ==> r.rows[i] == RowOfCorrected(ItemsOf(meta.cart)[i])
  {
    PageWith(p, retrieve, RowOfCorrected)
  }

  /** The page, with the way a parsed item becomes a row as a parameter. */
  function PageWith(p: SearchParams, retrieve: string -> Intent, row: ItemJson -> Row): Page {
    var id := PiId(p);
    if !Truthy(id) then MissingReference(CLEARED_KEY)
    else
      var pi := retrieve(id.value);
      var meta := pi.metadata.GetOr(Meta(None, None, None, NoCart));
      var items := ItemsOf(meta.cart);
      Summary(CLEARED_KEY, Upper(OrElse(pi.currency, "usd")), pi.amount.GetOr(0),
              MetaNumber(meta.subtotal), ShipCellOf(MetaNumber(meta.shipping)), MetaNumber(meta.tax),
              seq(|items|, i requires 0 <= i < |items| => row(items[i])))
  }

  /** The script clears exactly the key the cart persists under. */
  lemma ClearsTheCartKey()
    ensures CLEARED_KEY == Cart.LS_KEY
  {
  }

  // ---- reading back what the payment route wrote --------------------------------------

  /** A snapshot entry after `JSON.stringify` and `JSON.parse`: only its two keys. */
  function EntryJson(e: PaymentIntent.CartEntry): ItemJson {
    ItemJson(Some(e.productId), None, None, Some(e.quantity), None)
  }

  /** The intent the payment route created, as `retrieve` returns it. */
  function Created(ip: PaymentIntent.IntentParams): Intent {
    var m := ip.metadata;
    Intent(Some(ip.currency), Some(ip.amount),
           Some(Meta(Some(m.subtotal), Some(m.shipping), Some(m.tax),
                     Items(seq(|m.cart|, i requires 0 <= i < |m.cart| => EntryJson(m.cart[i]))))))
  }

  /** The success page shows the charged amount and reads the metadata amounts
      back as the numbers the payment route charged; shipping shows "Free"
      exactly when none was charged. As written, every row shows "Item", 1 and
      "--"; read through the corrected row, each shows its charged quantity. */
  lemma SummaryMatchesCharge<Raw>(p: SearchParams, body: PaymentIntent.Body<Raw>,
                                  sanitize: seq<Raw> -> seq<PaymentIntent.SafeLine>,
                                  estimateTax: PaymentIntent.TaxQuery -> int,
                                  retrieve: string -> Intent)
    requires Truthy(PiId(p))
    requires retrieve(PiId(p).value) == Created(PaymentIntent.Post(body, sanitize, estimateTax))
    ensures var ip := PaymentIntent.Post(body, sanitize, estimateTax);
            var safe := sanitize(body.items.GetOr([]));
            var subtotal := OrderMath.SubtotalFrom(PaymentIntent.AsCartLines(safe));
            var ship := PaymentIntent.Ship(body.shipCents);
            var r := SuccessPage(p, retrieve);
            && r.Summary?
            && r.total == ip.amount
            && r.subtotal == Finite(subtotal as real)
            && (r.shipping == Free <==> ship == 0)
            && |r.rows| == |safe|
            && forall i :: 0 <= i < |safe| ==> r.rows[i] == Row("Item", 1, None)
    ensures var safe := sanitize(body.items.GetOr([]));
            var c := SuccessPageCorrected(p, retrieve);
            && c.Summary? && |c.rows| == |safe|
            && forall i :: 0 <= i < |safe| ==> c.rows[i].qty == Max(1, PaymentIntent.SnapshotQty(safe[i]))
  {
    PaymentIntent.MetadataReadsBack(body, sanitize, estimateTax);
    var safe := sanitize(body.items.GetOr([]));
    var ip := PaymentIntent.Post(body, sanitize, estimateTax);
    forall i | 0 <= i < |safe|
      ensures SuccessPage(p, retrieve).rows[i] == Row("Item", 1, None)
    {
      RowOfSnapshotAsWritten(ip.metadata.cart[i]);
    }
  }

  /** The row the page shows for a snapshot entry, as written: the snapshot has
      `quantity`, the page reads `qty`, so every line shows quantity 1 and the
      placeholder name. */
  lemma RowOfSnapshotAsWritten(e: PaymentIntent.CartEntry)
    ensures RowOf(EntryJson(e)) == Row("Item", 1, None)
  {
  }

  /** Three bottles charged, "Qty: 1" shown. */
  lemma ThreeBottlesShowOne()
    ensures var e := PaymentIntent.CartEntry("prod_hot", 3);
            RowOf(EntryJson(e)).qty == 1 != e.quantity
  {
    RowOfSnapshotAsWritten(PaymentIntent.CartEntry("prod_hot", 3));
  }

  /** The row read with `qty ?? quantity`, so that the key the snapshot is
      written with is the one read; `SuccessPageCorrected` uses this row. */
  function RowOfCorrected(it: ItemJson): (r: Row)
    ensures r.qty >= 1 && r.price == it.price && r.name == it.name.GetOr("Item")
  {
    Row(it.name.GetOr("Item"), Max(1, if it.qty.Some? then it.qty.value else it.quantity.GetOr(1)), it.price)
  }

  /** Corrected, the page shows the charged quantity of every snapshot entry. */
  lemma RowOfSnapshotCorrected(e: PaymentIntent.CartEntry)
    requires e.quantity >= 1
    ensures RowOfCorrected(EntryJson(e)).qty == e.quantity
  {
  }
}
