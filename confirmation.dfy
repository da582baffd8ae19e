/** The order confirmation views (the client component and the page): which
    screen shows for a redirect status, an id, the loading flag and the loaded
    order; how the client reconstructs subtotal, tax and total; the money
    clamp and format; and the short order id. */
module Confirmation {
  import opened Common
  import OrderMath

  // ---- the loaded order ---------------------------------------------------------

  /** A captured line; `quantity` and `unitAmount` are as `Number(...)` sees them. */
  datatype OrderItem = OrderItem(id: string, name: Option<string>, quantity: Option<JsNum>, unitAmount: Option<JsNum>)

  /** The order as the orders route returns it, amounts in cents. */
  datatype Order = Order(
    id: Option<string>, amount: Option<int>, currency: Option<string>,
    subtotal: Option<int>, shipping_cents: Option<int>, tax: Option<int>,
    cart: Option<seq<OrderItem>>)

  /** `Number(x) || d`: NaN, 0 and a missing value give the default. */
  function NumberOr(x: Option<JsNum>, d: real): real {
    match x
    case Some(Finite(v)) => if v != 0.0 then v else d
    case _ => d
  }

  /** A line's unit price: rounded, at least 0. */
  function UnitCents(it: OrderItem): (r: int)
    ensures r >= 0
  {
    Max(0, Round(NumberOr(it.unitAmount, 0.0)))
  }

  /** A line's quantity: rounded, at least 1. */
  function UnitQty(it: OrderItem): (r: int)
    ensures r >= 1
  {
    Max(1, Round(NumberOr(it.quantity, 1.0)))
  }

  /** `computedSubtotal`, folded from the left. */
  function ComputedSubtotal(items: seq<OrderItem>): (r: int)
    ensures r >= 0
  {
    if items == [] then 0
    else ComputedSubtotal(items[..|items| - 1]) + UnitCents(items[|items| - 1]) * UnitQty(items[|items| - 1])
  }

  /** The lines as order lines with their normalised price and quantity. */
  function AsCartLines(items: seq<OrderItem>): (r: seq<OrderMath.CartLine>)
    ensures |r| == |items|
    ensures forall i :: 0 <= i < |items| ==> r[i] == OrderMath.CartLine(Some(UnitCents(items[i])), Some(UnitQty(items[i])))
  {
    seq(|items|, i requires 0 <= i < |items| => OrderMath.CartLine(Some(UnitCents(items[i])), Some(UnitQty(items[i]))))
  }

  /** The client's reconstruction is the order arithmetic's subtotal of the
      normalised lines, so it is independent of their order. */
  lemma {:induction false} ComputedSubtotalAgrees(items: seq<OrderItem>)
    ensures ComputedSubtotal(items) == OrderMath.SubtotalFrom(AsCartLines(items))
  {
    if items != [] {
      var init := items[..|items| - 1];
      assert AsCartLines(items)[..|items| - 1] == AsCartLines(init);
      ComputedSubtotalAgrees(init);
    }
  }

  /** `subtotal` when it is positive, else the reconstruction. */
  function DisplaySubtotal(o: Order): (r: int)
    ensures o.subtotal.Some? && o.subtotal.value > 0 ==> r == o.subtotal.value
    ensures !(o.subtotal.Some? && o.subtotal.value > 0) ==> r == ComputedSubtotal(o.cart.GetOr([]))
  {
    if o.subtotal.Some? && o.subtotal.value > 0 then o.subtotal.value
    else ComputedSubtotal(o.cart.GetOr([]))
  }

  /** `tax` when it is positive (a stored 0 is falsy), else what the amount leaves
      after shipping and subtotal, at least 0. */
  function DisplayTax(o: Order): (r: int)
    ensures r >= 0
    ensures o.tax.Some? && o.tax.value > 0 ==> r == o.tax.value
    ensures !(o.tax.Some? && o.tax.value > 0) ==>
              r == Max(0, o.amount.GetOr(0) - o.shipping_cents.GetOr(0) - DisplaySubtotal(o))
  {
    if o.tax.Some? && o.tax.value != 0 && o.tax.value >= 0 then o.tax.value
    else Max(0, o.amount.GetOr(0) - o.shipping_cents.GetOr(0) - DisplaySubtotal(o))
  }

  /** `amount` when present, else the sum of the displayed parts. */
  function DisplayTotal(o: Order): (r: int)
    ensures o.amount.Some? ==> r == o.amount.value
    ensures o.amount.None? ==> r == DisplaySubtotal(o) + o.shipping_cents.GetOr(0) + DisplayTax(o)
  {
    if o.amount.Some? then o.amount.value
    else DisplaySubtotal(o) + o.shipping_cents.GetOr(0) + DisplayTax(o)
  }

  /** Without a stored tax, the summary adds up: subtotal + shipping + tax is the
      amount whenever the amount covers subtotal and shipping. */
  lemma SummaryBalances(o: Order)
    requires o.amount.Some? && (o.tax.None? || o.tax.value <= 0)
    requires o.amount.value >= o.shipping_cents.GetOr(0) + DisplaySubtotal(o)
    ensures DisplaySubtotal(o) + o.shipping_cents.GetOr(0) + DisplayTax(o) == DisplayTotal(o)
  {
  }

  // ---- money and the short id ---------------------------------------------------------

  /** `(Math.max(0, Math.round(cents)) / 100).toFixed(2)` for whole cents:
      dollars, a point and two digits of cents, negatives shown as 0.00. */
  function Money(cents: int): (r: string)
    ensures |r| >= 4 && r[|r| - 3] == '.'
    ensures cents <= 0 ==> r == "0.00"
  {
    var c := Max(0, cents);
    var cs := c % 100;
    NatDigits(c / 100) + "." + [DigitChar(cs / 10), DigitChar(cs % 10)]
  }

  /** Different non-negative amounts show differently: the format loses nothing
      but the sign. */
  lemma MoneyInjective(a: int, b: int)
    requires a >= 0 && b >= 0 && Money(a) == Money(b)
    ensures a == b
  {
    MoneyParts(a);
    MoneyParts(b);
    DigitsRoundTrip(a / 100);
    DigitsRoundTrip(b / 100);
    CentsDecompose(a);
    CentsDecompose(b);
  }

  /** The pieces of a non-negative amount's text: the dollars' digits, then the
      two cent digits. */
  lemma MoneyParts(a: int)
    requires a >= 0
    ensures var r := Money(a);
            && r[..|r| - 3] == NatDigits(a / 100)
            && r[|r| - 2] == DigitChar(a % 100 / 10) && r[|r| - 1] == DigitChar(a % 100 % 10)
  {
    var d := NatDigits(a / 100);
    var tail := "." + [DigitChar(a % 100 / 10), DigitChar(a % 100 % 10)];
    assert Money(a) == d + tail;
    assert |tail| == 3;
    assert (d + tail)[..|d|] == d;
  }

  lemma CentsDecompose(a: int)
    requires a >= 0
    ensures a == 100 * (a / 100) + 10 * (a % 100 / 10) + a % 100 % 10
  {
    var r := a % 100;
    assert a == 100 * (a / 100) + r;
    assert r == 10 * (r / 10) + r % 10;
  }

  /** `id?.slice(-6)?.toUpperCase() ?? "—"` */
  function ShortId(id: Option<string>): (r: string)
    ensures id.None? ==> r == "—"
    ensures id.Some? ==> (|r| == Min(6, |id.value|)
                          && r == Upper(id.value[|id.value| - |r|..]))
  {
    match id
    case None => "—"
    case Some(s) => Upper(if |s| <= 6 then s else s[|s| - 6..])
  }

  // ---- screens ----------------------------------------------------------------------

  datatype Screen =
    | NotCompleted(refresh: bool)
    | NoOrderId
    | Loading
    | OrderNotLoaded
    | Receipt(order: Order)

  /** Stripe reported a redirect that did not succeed. */
  predicate FailedRedirect(redirectStatus: string) {
    redirectStatus != "" && redirectStatus != "succeeded"
  }

  /** The branch order both views share: failed redirect, then no id, then
      loading, then no order, then the receipt. */
  function SelectScreen(pi: string, redirectStatus: string, loading: bool, order: Option<Order>): (s: Screen)
    ensures FailedRedirect(redirectStatus) <==> s.NotCompleted?
    ensures s.NotCompleted? ==> s.refresh == (pi != "")
    ensures s == NoOrderId <==> !FailedRedirect(redirectStatus) && pi == ""
    ensures s == Loading <==> !FailedRedirect(redirectStatus) && pi != "" && loading
    ensures s.Receipt? <==> !FailedRedirect(redirectStatus) && pi != "" && !loading && order.Some?
    ensures s.Receipt? ==> s.order == order.value
  {
    if FailedRedirect(redirectStatus) then NotCompleted(pi != "")
    else if pi == "" then NoOrderId
    else if loading then Loading
    else if order.None? then OrderNotLoaded
    else Receipt(order.value)
  }

  /** The cart purge is mounted only with the receipt. */
  predicate MountsPurge(s: Screen) {
    s.Receipt?
  }

  /** The query of the confirmation page. */
  datatype SearchParams = SearchParams(pi: Option<string>, payment_intent: Option<string>, redirect_status: Option<string>)

  /** `searchParams.pi || searchParams.payment_intent || ""` */
  function PagePi(p: SearchParams): (r: string)
    ensures Truthy(p.pi) ==> r == p.pi.value
    ensures !Truthy(p.pi) ==> r == OrElse(p.payment_intent, "")
  {
    OrElse(p.pi, OrElse(p.payment_intent, ""))
  }

  function PageStatus(p: SearchParams): string {
    OrElse(p.redirect_status, "")
  }

  /** The page's "Refresh order status" link. */
  function RefreshLink(pi: string): string {
    "/checkout/confirmation?pi=" + pi
  }

  /** The page's receipt shows the stored amounts, each 0 when missing, through
      the money clamp; nothing is reconstructed. */
  datatype PageTotals = PageTotals(subtotal: string, shipping: string, tax: string, total: string)

  function PageReceiptTotals(o: Order): (r: PageTotals)
    ensures r.subtotal == Money(o.subtotal.GetOr(0)) && r.shipping == Money(o.shipping_cents.GetOr(0))
    ensures r.tax == Money(o.tax.GetOr(0)) && r.total == Money(o.amount.GetOr(0))
  {
    PageTotals(Money(o.subtotal.GetOr(0)), Money(o.shipping_cents.GetOr(0)),
               Money(o.tax.GetOr(0)), Money(o.amount.GetOr(0)))
  }

  /** The client's receipt totals. */
  function ClientReceiptTotals(o: Order): (r: PageTotals)
    ensures r.subtotal == Money(DisplaySubtotal(o)) && r.shipping == Money(o.shipping_cents.GetOr(0))
    ensures r.tax == Money(DisplayTax(o)) && r.total == Money(DisplayTotal(o))
  {
    PageTotals(Money(DisplaySubtotal(o)), Money(o.shipping_cents.GetOr(0)),
               Money(DisplayTax(o)), Money(DisplayTotal(o)))
  }

  /** The two views agree on an order whose stored subtotal and tax are positive
      and whose amount is present. */
  lemma ViewsAgreeOnCompleteOrders(o: Order)
    requires o.subtotal.Some? && o.subtotal.value > 0 && o.tax.Some? && o.tax.value > 0 && o.amount.Some?
    ensures ClientReceiptTotals(o) == PageReceiptTotals(o)
  {
  }

  // ---- the views' state ---------------------------------------------------------------

  /** The `order`/`loading` state of a confirmation view and the effect that loads
      the order. */
  class OrderView {
    const pi: string
    const redirectStatus: string
    var order: Option<Order>
    var loading: bool

    /** The first render: loading exactly when there is an id. */
    constructor(pi: string, redirectStatus: string)
      ensures this.pi == pi && this.redirectStatus == redirectStatus
      ensures order.None? && loading == (pi != "")
    {
      this.pi := pi;
      this.redirectStatus := redirectStatus;
      order := None;
      loading := pi != "";
    }

    function CurrentScreen(): (s: Screen)
      reads this
      ensures s == SelectScreen(pi, redirectStatus, loading, order)
      ensures MountsPurge(s) <==> !FailedRedirect(redirectStatus) && pi != "" && !loading && order.Some?
    {
      SelectScreen(pi, redirectStatus, loading, order)
    }

    /** The effect: with an id, start loading. (A failed redirect returns before
        the effect is declared, so it never runs there.) */
    method StartLoad()
      requires !FailedRedirect(redirectStatus)
      modifies this
      ensures loading == (pi != "" || old(loading)) && order == old(order)
    {
      if pi == "" {
        return;
      }
      loading := true;
    }

    /** The client's "Refresh order status" button, offered on the failed screen
        when there is an id: it starts loading again. */
    method Refresh()
      requires FailedRedirect(redirectStatus) && pi != ""
      modifies this
      ensures loading && order == old(order)
    {
      loading := true;
    }

    /** `getOrder(pi)` answered: keep the order (null when the lookup failed) and
        stop loading. */
    method OrderLoaded(data: Option<Order>)
      modifies this
      ensures order == data && !loading
    {
      order := data;
      loading := false;
    }

    /** Refreshing on the failed screen never leaves it: whatever the lookup
        returns, the screen stays "Payment was not completed". */
    lemma RefreshStaysOnFailedScreen(data: Option<Order>)
      requires FailedRedirect(redirectStatus)
      ensures SelectScreen(pi, redirectStatus, true, order) == NotCompleted(pi != "")
      ensures SelectScreen(pi, redirectStatus, false, data) == NotCompleted(pi != "")
    {
    }
  }

  /** A successful redirect with an id goes from the spinner to the receipt once
      the order arrives, and to "not found" when it does not. */
  method LoadScenario(pi: string, o: Order) returns (first: Screen, loaded: Screen, missing: Screen)
    requires pi != ""
    ensures first == Loading && loaded == Receipt(o) && missing == OrderNotLoaded
  {
    var v := new OrderView(pi, "succeeded");
    v.StartLoad();
    first := v.CurrentScreen();
    v.OrderLoaded(Some(o));
    loaded := v.CurrentScreen();
    var w := new OrderView(pi, "");
    w.StartLoad();
    w.OrderLoaded(None);
    missing := w.CurrentScreen();
  }
}
