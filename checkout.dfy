/** The checkout page as a state machine: the address form, the confirm/edit
    cycle, the rates request and its arrival, rate selection, and the payment
    intent request; plus the values the page derives from its state. */
module Checkout {
  import opened Common
  import opened OrderMath
  import opened Shipping

  /** The flat address the address form reports. */
  datatype FormAddress = FormAddress(
    name: string, line1: string, line2: string, city: string,
    state: string, postal_code: string, country: string)

  /** The reply of the shipping route as the page reads it. */
  datatype RatesReply = RatesReply(ok: bool, rates: Option<seq<ShippingRate>>, error: Option<string>)

  /** The reply of the payment-intent route as the page reads it. */
  datatype IntentReply = IntentReply(ok: bool, clientSecret: Option<string>, error: Option<string>)

  datatype Phase = BeforeAddress | ChoosingRate | RateChosen

  /** What the tax estimator is asked. */
  datatype TaxQuery = TaxQuery(subTotal: int, shippingCents: int, toAddress: FormAddress)

  /** The options the payment form is mounted with. */
  datatype ElementsOptions =
    | WithSecret(clientSecret: string)
    | Deferred(currency: string, amount: int)

  /** What the page posts to create a payment intent. */
  datatype IntentRequest = IntentRequest(
    items: seq<CartLine>, currency: string, shipCents: int, address: FormAddress, rateId: string)

  const RATES_FAILED: string := "Failed to fetch rates."
  const PAYMENT_FAILED: string := "Couldn't start payment."

  /** The Stripe currency: the cart's currency lower-cased when it is present and
      not blank, else "usd". */
  function SafeCurrency(currency: Option<string>): (r: string)
    ensures currency.None? ==> r == "usd"
    ensures currency.Some? && !Blank(currency.value) ==> r == Lower(currency.value)
    ensures currency.Some? && Blank(currency.value) ==> r == "usd"
  {
    if currency.Some? && !Blank(currency.value) then Lower(currency.value) else "usd"
  }

  /** The checkout is disabled exactly when the normalised cart is worth nothing:
      no lines, or a subtotal that is 0. */
  function CartDisabled(norm: seq<CartLine>): (r: bool)
    ensures r <==> SubtotalFrom(norm) == 0
  {
    |norm| == 0 || Breakdown(norm).subtotal <= 0
  }

  /** The amount of the deferred payment form: the base total, but never below
      Stripe's 50-cent minimum. */
  function DeferredAmount(norm: seq<CartLine>): (r: int)
    ensures r >= 50
    ensures Breakdown(norm).total >= 50 ==> r == Breakdown(norm).total
    ensures Breakdown(norm).total < 50 ==> r == 50
  {
    Max(50, Breakdown(norm).total)
  }

  /** An empty cart is disabled and its deferred amount is the 50-cent floor. */
  lemma EmptyCartIsDisabled()
    ensures CartDisabled([]) && DeferredAmount([]) == 50
  {
    BreakdownBounds([]);
  }

  class CheckoutPage {
    /** `sanitize(items)` and the cart's currency, fixed for the life of the page. */
    const norm: seq<CartLine>
    const cartCurrency: Option<string>

    var addr: Option<FormAddress>
    var addrComplete: bool
    var addrConfirmed: bool
    var editingAddress: bool
    var shipOpts: seq<ShippingRate>
    var chosen: Option<ShippingRate>
    var busyRates: bool
    var clientSecret: Option<string>
    var uiErr: Option<string>
    /** A rates request whose run has not been cancelled is outstanding. */
    var ratesPending: bool
    /** A payment-intent request whose run has not been cancelled is outstanding. */
    var intentPending: bool

    /** The page's invariant. The address form is open exactly while the address
        is unconfirmed; "Checking rates" shows exactly while a live rates request
        is outstanding; rates, a chosen rate, a payment intent and any request
        exist only for a confirmed address; the chosen rate is one of the offered
        rates. */
    ghost predicate Valid()
      reads this
    {
      && editingAddress == !addrConfirmed
      && (addrComplete ==> addr.Some?)
      && (addrConfirmed ==> addr.Some?)
      && (busyRates <==> ratesPending)
      && (ratesPending ==> addrConfirmed && !CartDisabled(norm) && shipOpts == [] && chosen.None? && !intentPending)
      && (chosen.Some? ==> addrConfirmed && chosen.value in shipOpts)
      && (|shipOpts| > 0 ==> addrConfirmed && !CartDisabled(norm))
      && (clientSecret.Some? ==> addrConfirmed)
      && (intentPending ==> IntentReady())
    }

    /** The first render: nothing entered, the form open. */
    constructor(norm: seq<CartLine>, cartCurrency: Option<string>)
      ensures this.norm == norm && this.cartCurrency == cartCurrency
      ensures addr.None? && !addrComplete && !addrConfirmed && editingAddress
      ensures shipOpts == [] && chosen.None? && !busyRates
      ensures clientSecret.None? && uiErr.None?
      ensures !ratesPending && !intentPending
      ensures Valid()
    {
      this.norm := norm;
      this.cartCurrency := cartCurrency;
      addr := None;
      addrComplete := false;
      addrConfirmed := false;
      editingAddress := true;
      shipOpts := [];
      chosen := None;
      busyRates := false;
      clientSecret := None;
      uiErr := None;
      ratesPending := false;
      intentPending := false;
    }

    // ---- derived values ----------------------------------------------------------

    /** A payment intent may be requested. */
    predicate IntentReady()
      reads this
    {
      addrConfirmed && addr.Some? && chosen.Some? && !CartDisabled(norm)
    }

    /** "beforeAddress" until the address is confirmed, then "ready" (RateChosen)
        once a rate is chosen and "selectRate" (ChoosingRate) before that. */
    function ShippingPhase(): (r: Phase)
      reads this
      ensures r == BeforeAddress <==> !addrConfirmed
      ensures r == RateChosen <==> addrConfirmed && chosen.Some?
    {
      if !addrConfirmed then BeforeAddress else if chosen.Some? then RateChosen else ChoosingRate
    }

    /** The chosen rate's amount, clamped at 0, and only in the "ready" phase. */
    function SelectedShipping(): (r: Option<int>)
      reads this
      ensures r.Some? <==> ShippingPhase() == RateChosen
      ensures r.Some? ==> r.value >= 0 && (chosen.value.amount >= 0 ==> r.value == chosen.value.amount)
    {
      if ShippingPhase() == RateChosen then Some(Max(0, chosen.value.amount)) else None
    }

    /** The tax shown beside the summary: the estimator's answer once the address
        is confirmed, the flat 8% before. */
    function TaxPreview(estimateTax: TaxQuery -> int): (r: int)
      reads this
      ensures !addrConfirmed || addr.None? ==> r == Breakdown(norm).tax
      ensures addrConfirmed && addr.Some? ==>
                r == estimateTax(TaxQuery(Breakdown(norm).subtotal, SelectedShipping().GetOr(0), addr.value))
    {
      if addrConfirmed && addr.Some? then
        estimateTax(TaxQuery(Breakdown(norm).subtotal, SelectedShipping().GetOr(0), addr.value))
      else Breakdown(norm).tax
    }

    /** The address may be confirmed once complete, and not while rates are loading. */
    predicate CanConfirmAddress()
      reads this
    {
      addrComplete && !busyRates
    }

    /** The payment form is mounted with the client secret once there is one, and
        in deferred mode for the base total before. */
    function Options(): (r: ElementsOptions)
      reads this
      ensures r.WithSecret? <==> Truthy(clientSecret)
      ensures r.Deferred? ==> r.amount >= 50 && r.currency == SafeCurrency(cartCurrency)
    {
      if Truthy(clientSecret) then WithSecret(clientSecret.value)
      else Deferred(SafeCurrency(cartCurrency), DeferredAmount(norm))
    }

    /** The key that remounts the payment form when the client secret changes. */
    function ElementsKey(): (r: string)
      reads this
      ensures Truthy(clientSecret) ==> r == "cs_" + clientSecret.value
      ensures !Truthy(clientSecret) ==> r == "deferred"
    {
      if Truthy(clientSecret) then "cs_" + clientSecret.value else "deferred"
    }

    /** The body of the payment-intent request: the chosen rate's amount clamped at
        0 as shipping, and its id. */
    function IntentBody(): (r: IntentRequest)
      reads this
      requires IntentReady()
      ensures r.shipCents >= 0 && r.rateId == chosen.value.id && r.address == addr.value
      ensures r.currency == SafeCurrency(cartCurrency) && r.items == norm
    {
      IntentRequest(norm, SafeCurrency(cartCurrency), Max(0, chosen.value.amount), addr.value, chosen.value.id)
    }

    /** While the address form is open the confirm button is never held back by a
        rates request: the invariant ties "Checking rates" to a live request, and
        a live request needs a confirmed address. */
    lemma EditingNeverBlocked()
      requires Valid() && editingAddress && addrComplete
      ensures CanConfirmAddress()
    {
    }

    // ---- events --------------------------------------------------------------------

    /** The address form reports a change. The rates and intent effects re-run but
        return at once, since the address is not confirmed. */
    method OnAddressChange(a: FormAddress, complete: bool)
      requires editingAddress
      modifies this
      ensures addr == Some(a) && addrComplete == complete
      ensures addrConfirmed == old(addrConfirmed) && editingAddress == old(editingAddress)
      ensures shipOpts == old(shipOpts) && chosen == old(chosen) && busyRates == old(busyRates)
      ensures clientSecret == old(clientSecret) && uiErr == old(uiErr)
      ensures ratesPending == old(ratesPending) && intentPending == old(intentPending)
      ensures old(Valid()) ==> Valid()
    {
      addr := Some(a);
      addrComplete := complete;
    }

    /** Confirm the address: nothing unless it is complete; otherwise close the
        form, drop rates, the chosen rate, the intent and the error, and let the
        rates effect start a request when the cart is worth something. */
    method OnConfirmAddress()
      requires Valid() && editingAddress
      modifies this
      ensures !old(addrComplete) ==> unchanged(this)
      ensures old(addrComplete) ==>
                && addrConfirmed && !editingAddress
                && shipOpts == [] && chosen.None? && clientSecret.None? && uiErr.None?
                && busyRates == ratesPending == !CartDisabled(norm)
                && !intentPending
                && addr == old(addr) && addrComplete == old(addrComplete)
      ensures Valid()
    {
      if !addrComplete {
        return;
      }
      addrConfirmed := true;
      editingAddress := false;
      uiErr := None;
      shipOpts := [];
      chosen := None;
      clientSecret := None;
      CleanupRates();
      RunRatesEffect();
      intentPending := false;
    }

    /** The cleanup of a rates run: the run is cancelled, and "Checking rates"
        goes with it. */
    method CleanupRates()
      modifies this
      ensures !ratesPending && !busyRates
      ensures addr == old(addr) && addrComplete == old(addrComplete)
      ensures addrConfirmed == old(addrConfirmed) && editingAddress == old(editingAddress)
      ensures shipOpts == old(shipOpts) && chosen == old(chosen)
      ensures clientSecret == old(clientSecret) && uiErr == old(uiErr)
      ensures intentPending == old(intentPending)
    {
      ratesPending := false;
      busyRates := false;
    }

    /** The cleanup of a rates run as the page has it: the run is cancelled, so its
        `finally` will not reset `busyRates`, and nothing else does. */
    method CleanupRatesAsWritten()
      modifies this
      ensures !ratesPending && busyRates == old(busyRates)
      ensures addr == old(addr) && addrComplete == old(addrComplete)
      ensures addrConfirmed == old(addrConfirmed) && editingAddress == old(editingAddress)
      ensures shipOpts == old(shipOpts) && chosen == old(chosen)
      ensures clientSecret == old(clientSecret) && uiErr == old(uiErr)
      ensures intentPending == old(intentPending)
    {
      ratesPending := false;
    }

    /** The body of the rates effect: start a request for a confirmed address and
        a cart worth something, showing "Checking rates" and clearing the error. */
    method RunRatesEffect()
      modifies this
      ensures var go := addrConfirmed && addr.Some? && !CartDisabled(norm);
              && (go ==> busyRates && ratesPending && uiErr.None?)
              && (!go ==> busyRates == old(busyRates) && ratesPending == old(ratesPending) && uiErr == old(uiErr))
      ensures addr == old(addr) && addrComplete == old(addrComplete)
      ensures addrConfirmed == old(addrConfirmed) && editingAddress == old(editingAddress)
      ensures shipOpts == old(shipOpts) && chosen == old(chosen)
      ensures clientSecret == old(clientSecret) && intentPending == old(intentPending)
    {
      if !addrConfirmed || addr.None? || CartDisabled(norm) {
        return;
      }
      busyRates := true;
      uiErr := None;
      ratesPending := true;
    }

    /** Edit the address: reopen the form and drop the rates, the chosen rate and
        the intent; the effects' cleanups cancel any outstanding request. */
    method OnEditAddress()
      requires Valid() && !editingAddress
      modifies this
      ensures editingAddress && !addrConfirmed
      ensures shipOpts == [] && chosen.None? && clientSecret.None?
      ensures !busyRates && !ratesPending && !intentPending
      ensures addr == old(addr) && addrComplete == old(addrComplete) && uiErr == old(uiErr)
      ensures Valid()
    {
      editingAddress := true;
      addrConfirmed := false;
      shipOpts := [];
      chosen := None;
      clientSecret := None;
      CleanupRates();
      intentPending := false;
    }

    /** Edit the address as the page has it: a rates request in flight is
        cancelled but "Checking rates" stays on. */
    method OnEditAddressAsWritten()
      requires Valid() && !editingAddress
      modifies this
      ensures editingAddress && !addrConfirmed
      ensures shipOpts == [] && chosen.None? && clientSecret.None?
      ensures busyRates == old(busyRates) && !ratesPending && !intentPending
      ensures addr == old(addr) && addrComplete == old(addrComplete) && uiErr == old(uiErr)
    {
      editingAddress := true;
      addrConfirmed := false;
      shipOpts := [];
      chosen := None;
      clientSecret := None;
      CleanupRatesAsWritten();
      intentPending := false;
    }

    /** The outstanding rates request answers. A good answer offers its rates and
        picks the first one; a bad one shows its error; either way "Checking
        rates" ends. A newly chosen rate starts the intent request. */
    method RatesArrived(reply: RatesReply)
      requires Valid() && ratesPending
      modifies this
      ensures !busyRates && !ratesPending
      ensures reply.ok ==>
                && shipOpts == reply.rates.GetOr([])
                && chosen == (if |shipOpts| > 0 then Some(shipOpts[0]) else None)
                && intentPending == chosen.Some?
                && uiErr == (if chosen.Some? then None else old(uiErr))
      ensures !reply.ok ==>
                && shipOpts == old(shipOpts) && chosen == old(chosen)
                && uiErr == Some(OrElse(reply.error, RATES_FAILED))
                && intentPending == old(intentPending)
      ensures addr == old(addr) && addrComplete == old(addrComplete)
      ensures addrConfirmed == old(addrConfirmed) && editingAddress == old(editingAddress)
      ensures clientSecret == old(clientSecret)
      ensures Valid()
    {
      if reply.ok {
        var rates := reply.rates.GetOr([]);
        shipOpts := rates;
        chosen := if |rates| > 0 then Some(rates[0]) else None;
      } else {
        uiErr := Some(OrElse(reply.error, RATES_FAILED));
      }
      busyRates := false;
      ratesPending := false;
      if chosen.Some? {
        // the chosen rate's id changed: the intent effect re-runs
        RunIntentEffect();
      }
    }

    /** The body of the intent effect: start a request once ready, clearing the error. */
    method RunIntentEffect()
      modifies this
      ensures IntentReady() ==> intentPending && uiErr.None?
      ensures !IntentReady() ==> intentPending == old(intentPending) && uiErr == old(uiErr)
      ensures addr == old(addr) && addrComplete == old(addrComplete)
      ensures addrConfirmed == old(addrConfirmed) && editingAddress == old(editingAddress)
      ensures shipOpts == old(shipOpts) && chosen == old(chosen) && busyRates == old(busyRates)
      ensures clientSecret == old(clientSecret) && ratesPending == old(ratesPending)
    {
      if !IntentReady() {
        return;
      }
      uiErr := None;
      intentPending := true;
    }

    /** Pick one of the offered rates. Picking a different rate cancels any intent
        request and starts a new one; the current client secret stays until the
        new one arrives. */
    method SelectRate(opt: ShippingRate)
      requires Valid() && addrConfirmed && !busyRates && opt in shipOpts
      modifies this
      ensures chosen == Some(opt)
      ensures old(chosen).Some? && old(chosen).value.id == opt.id ==>
                intentPending == old(intentPending) && uiErr == old(uiErr)
      ensures !(old(chosen).Some? && old(chosen).value.id == opt.id) ==>
                intentPending && uiErr.None?
      ensures addr == old(addr) && addrComplete == old(addrComplete)
      ensures addrConfirmed == old(addrConfirmed) && editingAddress == old(editingAddress)
      ensures shipOpts == old(shipOpts) && busyRates == old(busyRates)
      ensures clientSecret == old(clientSecret) && ratesPending == old(ratesPending)
      ensures Valid()
    {
      var sameId := chosen.Some? && chosen.value.id == opt.id;
      chosen := Some(opt);
      if !sameId {
        intentPending := false;
        RunIntentEffect();
      }
    }

    /** The outstanding intent request answers: a good answer with a client secret
        mounts the payment form, anything else shows the error. */
    method IntentArrived(reply: IntentReply)
      requires Valid() && intentPending
      modifies this
      ensures !intentPending
      ensures reply.ok && Truthy(reply.clientSecret) ==>
                clientSecret == reply.clientSecret && uiErr == old(uiErr)
      ensures !(reply.ok && Truthy(reply.clientSecret)) ==>
                clientSecret == old(clientSecret) && uiErr == Some(OrElse(reply.error, PAYMENT_FAILED))
      ensures addr == old(addr) && addrComplete == old(addrComplete)
      ensures addrConfirmed == old(addrConfirmed) && editingAddress == old(editingAddress)
      ensures shipOpts == old(shipOpts) && chosen == old(chosen) && busyRates == old(busyRates)
      ensures ratesPending == old(ratesPending)
      ensures Valid()
    {
      if reply.ok && Truthy(reply.clientSecret) {
        clientSecret := reply.clientSecret;
      } else {
        uiErr := Some(OrElse(reply.error, PAYMENT_FAILED));
      }
      intentPending := false;
    }
  }

  /** With the page's own cleanup, editing the address while rates are loading
      leaves the confirm button disabled for good: "Checking rates" stays on, no
      request is outstanding to end it, and further edits of the form keep it so. */
  method StuckAfterEditDuringFetch(a: FormAddress) returns (canConfirm: bool, busy: bool, editing: bool)
    ensures editing && busy && !canConfirm
  {
    var page := new CheckoutPage([CartLine(Some(1000), Some(1))], None);
    assert !CartDisabled(page.norm) by {
      var l := page.norm;
      assert l[..0] == [];
    }
    page.OnAddressChange(a, true);
    page.OnConfirmAddress();
    page.OnEditAddressAsWritten();
    page.OnAddressChange(a, true);
    canConfirm, busy, editing := page.CanConfirmAddress(), page.busyRates, page.editingAddress;
  }
}
