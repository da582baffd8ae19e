/** The payment-intent route: the charged amount (subtotal + clamped shipping +
    estimated tax, never below 50 cents), the shipping block and the metadata
    snapshot sent with the intent. `sanitize` and `estimateTax` are not part of
    this model; the route takes them as parameters. */
module PaymentIntent {
  import opened Common
  import opened OrderMath

  /** Stripe's minimum charge, in cents. */
  const MIN_CHARGE: int := 50

  /** A cart line after `sanitize`: the fields the route reads. */
  datatype SafeLine = SafeLine(
    productId: Option<string>, id: Option<string>,
    price: Option<int>, qty: Option<int>, quantity: Option<int>)

  /** The address in the request body. */
  datatype Address = Address(
    name: Option<string>, line1: Option<string>, line2: Option<string>,
    city: Option<string>, state: Option<string>,
    postal_code: Option<string>, country: Option<string>)

  /** The request body; `shipCents` is as `Number.isFinite` sees it (a string or
      any other non-number is NonFinite). */
  datatype Body<Raw> = Body(
    items: Option<seq<Raw>>, currency: Option<string>, shipCents: Option<JsNum>,
    address: Option<Address>, rateId: Option<string>)

  datatype TaxQuery = TaxQuery(subTotal: int, shippingCents: int, toAddress: Option<Address>)

  datatype ShippingAddress = ShippingAddress(
    line1: Option<string>, line2: Option<string>, city: Option<string>,
    state: Option<string>, postal_code: Option<string>, country: string)

  datatype Shipping = Shipping(name: string, address: ShippingAddress)

  /** One entry of the cart snapshot. */
  datatype CartEntry = CartEntry(productId: string, quantity: int)

  datatype Metadata = Metadata(
    subtotal: string, shipping: string, tax: string, rate_id: string, cart: seq<CartEntry>)

  /** What the route asks Stripe to create. */
  datatype IntentParams = IntentParams(
    amount: int, currency: string, shipping: Option<Shipping>, metadata: Metadata)

  function AsCartLine(l: SafeLine): CartLine {
    CartLine(l.price, l.qty)
  }

  function AsCartLines(ls: seq<SafeLine>): (r: seq<CartLine>)
    ensures |r| == |ls| && forall i :: 0 <= i < |ls| ==> r[i] == AsCartLine(ls[i])
  {
    seq(|ls|, i requires 0 <= i < |ls| => AsCartLine(ls[i]))
  }

  /** The shipping charge: a finite `shipCents` rounded and clamped at 0; anything
      else, and a missing value, is 0. */
  function Ship(shipCents: Option<JsNum>): (r: int)
    ensures r >= 0
    ensures shipCents.None? || shipCents == Some(NonFinite) ==> r == 0
    ensures shipCents.Some? && shipCents.value.Finite? ==>
              r == Max(0, Round(shipCents.value.v))
  {
    match shipCents.GetOr(Finite(0.0))
    case Finite(v) => Max(0, Round(v))
    case NonFinite => 0
  }

  /** What the checkout page sends (a non-negative whole number of cents) passes
      through unchanged. */
  lemma ShipOfWholeCents(c: int)
    requires c >= 0
    ensures Ship(Some(Finite(c as real))) == c
  {
    assert Round(c as real) == c;
  }

  /** The charged amount: the total, but never below the minimum charge. */
  function Amount(total: int): (r: int)
    ensures r >= MIN_CHARGE
    ensures total >= MIN_CHARGE ==> r == total
    ensures total < MIN_CHARGE ==> r == MIN_CHARGE
  {
    Max(MIN_CHARGE, total)
  }

  /** `String(it.productId ?? it.id)` */
  function SnapshotId(l: SafeLine): string {
    if l.productId.Some? then l.productId.value
    else if l.id.Some? then l.id.value
    else "undefined"
  }

  /** `Number(it.qty ?? it.quantity ?? 1)` */
  function SnapshotQty(l: SafeLine): int {
    if l.qty.Some? then l.qty.value else l.quantity.GetOr(1)
  }

  /** One snapshot entry per sanitised line, in order. */
  function Snapshot(ls: seq<SafeLine>): (r: seq<CartEntry>)
    ensures |r| == |ls|
    ensures forall i :: 0 <= i < |ls| ==> r[i] == CartEntry(SnapshotId(ls[i]), SnapshotQty(ls[i]))
  {
    seq(|ls|, i requires 0 <= i < |ls| => CartEntry(SnapshotId(ls[i]), SnapshotQty(ls[i])))
  }

  /** The shipping block, present exactly when an address is given. */
  function ShippingFor(address: Option<Address>): (r: Option<Shipping>)
    ensures r.Some? <==> address.Some?
    ensures r.Some? ==> (r.value.name == OrElse(address.value.name, "")
                         && r.value.address.country == OrElse(address.value.country, "US")
                         && (r.value.address.line2.Some? <==> Truthy(address.value.line2)))
  {
    match address
    case None => None
    case Some(a) =>
      Some(Shipping(OrElse(a.name, ""), ShippingAddress(
        a.line1, if Truthy(a.line2) then a.line2 else None, a.city, a.state,
        a.postal_code, OrElse(a.country, "US"))))
  }

  /** `POST /api/stripe` up to the Stripe call: the intent it creates. */
  function Post<Raw>(body: Body<Raw>, sanitize: seq<Raw> -> seq<SafeLine>, estimateTax: TaxQuery -> int)
    : (r: IntentParams)
    ensures var safe := sanitize(body.items.GetOr([]));
            var subtotal := SubtotalFrom(AsCartLines(safe));
            var ship := Ship(body.shipCents);
            var tax := estimateTax(TaxQuery(subtotal, ship, body.address));
            && r.amount == Amount(subtotal + ship + tax)
            && r.metadata.subtotal == DecimalString(subtotal)
            && r.metadata.shipping == DecimalString(ship)
            && r.metadata.tax == DecimalString(tax)
            && r.metadata.cart == Snapshot(safe)
    ensures r.amount >= MIN_CHARGE
    ensures r.currency == body.currency.GetOr("usd")
    ensures r.metadata.rate_id == OrElse(body.rateId, "")
    ensures r.shipping.Some? <==> body.address.Some?
  {
    var safe := sanitize(body.items.GetOr([]));
    var ship := Ship(body.shipCents);
    var base := Breakdown(AsCartLines(safe));
    var tax := estimateTax(TaxQuery(base.subtotal, ship, body.address));
    var total := base.subtotal + ship + tax;
    IntentParams(
      Amount(total),
      body.currency.GetOr("usd"),
      ShippingFor(body.address),
      Metadata(DecimalString(base.subtotal), DecimalString(ship), DecimalString(tax),
               OrElse(body.rateId, ""), Snapshot(safe)))
  }

  /** The charged amount is never less than the goods and shipping when the tax
      estimate is not negative. */
  lemma AmountCoversGoods<Raw>(body: Body<Raw>, sanitize: seq<Raw> -> seq<SafeLine>, estimateTax: TaxQuery -> int)
    requires var safe := sanitize(body.items.GetOr([]));
             estimateTax(TaxQuery(SubtotalFrom(AsCartLines(safe)), Ship(body.shipCents), body.address)) >= 0
    ensures Post(body, sanitize, estimateTax).amount
            >= SubtotalFrom(AsCartLines(sanitize(body.items.GetOr([])))) + Ship(body.shipCents)
  {
  }

  /** The metadata amounts read back as the numbers that were charged. */
  lemma MetadataReadsBack<Raw>(body: Body<Raw>, sanitize: seq<Raw> -> seq<SafeLine>, estimateTax: TaxQuery -> int)
    ensures var r := Post(body, sanitize, estimateTax);
            var safe := sanitize(body.items.GetOr([]));
            var subtotal := SubtotalFrom(AsCartLines(safe));
            var ship := Ship(body.shipCents);
            && IntegerNumber(r.metadata.subtotal) == Some(subtotal)
            && IntegerNumber(r.metadata.shipping) == Some(ship)
            && IntegerNumber(r.metadata.tax) == Some(estimateTax(TaxQuery(subtotal, ship, body.address)))
  {
    var safe := sanitize(body.items.GetOr([]));
    var subtotal := SubtotalFrom(AsCartLines(safe));
    var ship := Ship(body.shipCents);
    DecimalRoundTrip(subtotal);
    DecimalRoundTrip(ship);
    DecimalRoundTrip(estimateTax(TaxQuery(subtotal, ship, body.address)));
  }
}
