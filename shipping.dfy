/** The shipping quote: destination normalisation and guards, bottle/gallon
    counting by product name, parcels from two lookup tables, and the
    UPS-Ground-then-any-UPS rate filter with mapped rates sorted by price. */
module Shipping {
  import opened Common

  // ---- parcels ----------------------------------------------------------------

  /** Box dimensions in sixteenths of an inch (so 13.5625 in is 217). */
  datatype Box = Box(length: int, width: int, height: int)

  datatype Rule = Rule(weightLbs: int, box: Box)

  /** A parcel as sent to the rate service: dimensions in inches (here sixteenths)
      and weight in ounces. */
  datatype Parcel = Parcel(box: Box, weightOz: int)

  function Inches(n: int): int { 16 * n }

  const SMALL_BOX: Box := Box(Inches(7), Inches(7), Inches(14))
  const CUBE_BOX: Box := Box(Inches(13), Inches(13), Inches(13))
  /** 13.5 x 7.875 x 13.5625 in */
  const GALLON_PAIR_BOX: Box := Box(216, 126, 217)

  /** Total package weight and box for 1..12 bottles. */
  const bottleConfig: map<int, Rule> := map[
    1 := Rule(3, SMALL_BOX), 2 := Rule(5, SMALL_BOX), 3 := Rule(6, SMALL_BOX),
    4 := Rule(8, SMALL_BOX), 5 := Rule(10, SMALL_BOX), 6 := Rule(11, CUBE_BOX),
    7 := Rule(12, CUBE_BOX), 8 := Rule(13, CUBE_BOX), 9 := Rule(14, CUBE_BOX),
    10 := Rule(15, CUBE_BOX), 11 := Rule(17, CUBE_BOX), 12 := Rule(19, CUBE_BOX)]

  /** Total package weight and box for 1..4 gallons. */
  const gallonConfig: map<int, Rule> := map[
    1 := Rule(11, SMALL_BOX), 2 := Rule(22, GALLON_PAIR_BOX),
    3 := Rule(33, CUBE_BOX), 4 := Rule(38, CUBE_BOX)]

  /** `Math.max(...Object.keys(config))` for each table. */
  const BMAX: int := 12
  const GMAX: int := 4

  /** The fallback parcel when there is nothing to ship: 7 x 7 x 14 in, 16 oz. */
  const FALLBACK_PARCEL: Parcel := Parcel(SMALL_BOX, 16)

  /** The two tables are keyed exactly 1..BMAX and 1..GMAX. */
  lemma TableKeys()
    ensures forall k :: k in bottleConfig <==> 1 <= k <= BMAX
    ensures forall k :: k in gallonConfig <==> 1 <= k <= GMAX
  {
  }

  /** `config[chunk] ?? config[max]` */
  function Lookup(config: map<int, Rule>, key: int, maxKey: int): Rule
    requires maxKey in config
  {
    if key in config then config[key] else config[maxKey]
  }

  /** One parcel for a rule: its box and `Math.max(1, Math.round(weightLbs * 16))` ounces. */
  function ParcelFor(rule: Rule): Parcel {
    Parcel(rule.box, Max(1, rule.weightLbs * 16))
  }

  /** `Math.max(0, Math.round(count))` */
  function RoundCount(count: real): nat {
    var r := Round(count);
    if r > 0 then r else 0
  }

  /** The chunk sizes of the decrementing loop: `cap` at a time, the rest last. */
  function Chunks(n: nat, cap: nat): (r: seq<nat>)
    requires cap > 0
    decreases n
    ensures forall i :: 0 <= i < |r| ==> 1 <= r[i] <= cap
  {
    if n == 0 then [] else [Min(n, cap)] + Chunks(n - Min(n, cap), cap)
  }

  function Sum(s: seq<nat>): nat {
    if s == [] then 0 else s[0] + Sum(s[1..])
  }

  /** The chunks add up to the count, and there are ceil(n / cap) of them:
      the fewest boxes of `cap` that hold `n`. */
  lemma {:induction false} ChunksShape(n: nat, cap: nat)
    requires cap > 0
    ensures Sum(Chunks(n, cap)) == n
    ensures n <= |Chunks(n, cap)| * cap < n + cap
    decreases n
  {
    if n > 0 {
      var c := Min(n, cap);
      var cs := Chunks(n, cap);
      assert cs[1..] == Chunks(n - c, cap);
      ChunksShape(n - c, cap);
      var k := |Chunks(n - c, cap)|;
      assert |cs| * cap == cap + k * cap;
    }
  }

  /** One parcel per chunk, looked up in `config`. */
  function ParcelsOf(chunks: seq<nat>, config: map<int, Rule>, maxKey: int): (r: seq<Parcel>)
    requires maxKey in config
    ensures |r| == |chunks|
  {
    if chunks == [] then [] else [ParcelFor(Lookup(config, chunks[0], maxKey))] + ParcelsOf(chunks[1..], config, maxKey)
  }

  /** Each parcel carries its chunk's table weight in ounces and its box. */
  lemma {:induction false} ParcelsFollowTable(chunks: seq<nat>, config: map<int, Rule>, maxKey: int, i: nat)
    requires maxKey in config && i < |chunks| && chunks[i] in config
    ensures ParcelsOf(chunks, config, maxKey)[i].box == config[chunks[i]].box
    ensures ParcelsOf(chunks, config, maxKey)[i].weightOz == Max(1, config[chunks[i]].weightLbs * 16)
    decreases i
  {
    if i > 0 {
      assert chunks[1..][i - 1] == chunks[i];
      ParcelsFollowTable(chunks[1..], config, maxKey, i - 1);
    }
  }

  /** The parcels of `buildParcelsFromCounts`: every gallon parcel, then every
      bottle parcel, or the single fallback parcel when both counts round to 0. */
  function PlannedParcels(bottles: real, gallons: real): seq<Parcel> {
    var p := ParcelsOf(Chunks(RoundCount(gallons), GMAX), gallonConfig, GMAX)
          + ParcelsOf(Chunks(RoundCount(bottles), BMAX), bottleConfig, BMAX);
    if p == [] then [FALLBACK_PARCEL] else p
  }

  /** ceil(g/4) + ceil(b/12) parcels when there is something to ship, otherwise the
      one fallback parcel; never none. */
  lemma ParcelCount(bottles: real, gallons: real)
    ensures var g, b := RoundCount(gallons), RoundCount(bottles);
            |PlannedParcels(bottles, gallons)| ==
              if g + b > 0 then (g + GMAX - 1) / GMAX + (b + BMAX - 1) / BMAX else 1
    ensures |PlannedParcels(bottles, gallons)| >= 1
  {
    var g, b := RoundCount(gallons), RoundCount(bottles);
    var gc, bc := Chunks(g, GMAX), Chunks(b, BMAX);
    ChunksShape(g, GMAX);
    ChunksShape(b, BMAX);
    CeilByCap(g, |gc|, GMAX);
    CeilByCap(b, |bc|, BMAX);
    var p := ParcelsOf(gc, gallonConfig, GMAX) + ParcelsOf(bc, bottleConfig, BMAX);
    assert |p| == |gc| + |bc|;
  }

  lemma CeilByCap(n: nat, k: nat, cap: nat)
    requires cap > 0 && n <= k * cap < n + cap
    ensures k == (n + cap - 1) / cap
  {
    var q := (n + cap - 1) / cap;
    assert q * cap <= n + cap - 1 < q * cap + cap;
    MulLess(k, q + 1, cap);
    MulLess(q, k + 1, cap);
  }

  /** a * c < b * c with c > 0 forces a < b. */
  lemma MulLess(a: int, b: int, c: int)
    requires c > 0 && a * c < b * c
    ensures a < b
  {
    assert (b - a) * c == b * c - a * c;
  }

  /** Every gallon parcel holds at most GMAX gallons and every bottle parcel at
      most BMAX bottles, and the parcels carry the table's weight for their chunk. */
  lemma ParcelWeights(bottles: real, gallons: real, i: nat)
    requires RoundCount(gallons) + RoundCount(bottles) > 0
    ensures var gc, bc := Chunks(RoundCount(gallons), GMAX), Chunks(RoundCount(bottles), BMAX);
            var p := PlannedParcels(bottles, gallons);
            (i < |gc| ==> gc[i] <= GMAX && p[i] == ParcelFor(gallonConfig[gc[i]])) &&
            (|gc| <= i < |gc| + |bc| ==> bc[i - |gc|] <= BMAX && p[i] == ParcelFor(bottleConfig[bc[i - |gc|]]))
  {
    var gc, bc := Chunks(RoundCount(gallons), GMAX), Chunks(RoundCount(bottles), BMAX);
    var gp, bp := ParcelsOf(gc, gallonConfig, GMAX), ParcelsOf(bc, bottleConfig, BMAX);
    ChunksShape(RoundCount(gallons), GMAX);
    ChunksShape(RoundCount(bottles), BMAX);
    assert |gp + bp| > 0;
    assert PlannedParcels(bottles, gallons) == gp + bp;
    TableKeys();
    if i < |gc| {
      assert 1 <= gc[i] <= GMAX;
      ParcelsFollowTable(gc, gallonConfig, GMAX, i);
      assert (gp + bp)[i] == gp[i];
    } else if i < |gc| + |bc| {
      assert 1 <= bc[i - |gc|] <= BMAX;
      ParcelsFollowTable(bc, bottleConfig, BMAX, i - |gc|);
      assert (gp + bp)[i] == bp[i - |gc|];
    }
  }

  /** One turn of a packing loop: the first chunk is `Min(n, cap)` and its parcel
      leads the rest. */
  lemma PackStep(done: seq<Parcel>, n: nat, config: map<int, Rule>, cap: nat)
    requires cap > 0 && cap in config && n > 0
    ensures var c := Min(n, cap);
            (done + [ParcelFor(Lookup(config, c, cap))]) + ParcelsOf(Chunks(n - c, cap), config, cap)
            == done + ParcelsOf(Chunks(n, cap), config, cap)
  {
    var c := Min(n, cap);
    var rest := Chunks(n - c, cap);
    assert Chunks(n, cap) == [c] + rest;
    assert ([c] + rest)[1..] == rest;
  }

  /** `buildParcelsFromCounts(bottles, gallons)`, with its two decrementing loops. */
  method BuildParcelsFromCounts(bottles: real, gallons: real) returns (parcels: seq<Parcel>)
    ensures parcels == PlannedParcels(bottles, gallons)
  {
    parcels := [];
    var gLeft: nat := RoundCount(gallons);
    while gLeft > 0
      invariant parcels + ParcelsOf(Chunks(gLeft, GMAX), gallonConfig, GMAX)
             == ParcelsOf(Chunks(RoundCount(gallons), GMAX), gallonConfig, GMAX)
    {
      var chunk := Min(gLeft, GMAX);
      var rule := Lookup(gallonConfig, chunk, GMAX);
      PackStep(parcels, gLeft, gallonConfig, GMAX);
      parcels := parcels + [ParcelFor(rule)];
      gLeft := gLeft - chunk;
    }
    assert Chunks(0, GMAX) == [];
    ghost var gallonParcels := parcels;
    ghost var bottleParcels: seq<Parcel> := [];
    var bLeft: nat := RoundCount(bottles);
    while bLeft > 0
      invariant parcels == gallonParcels + bottleParcels
      invariant bottleParcels + ParcelsOf(Chunks(bLeft, BMAX), bottleConfig, BMAX)
             == ParcelsOf(Chunks(RoundCount(bottles), BMAX), bottleConfig, BMAX)
    {
      var chunk := Min(bLeft, BMAX);
      var rule := Lookup(bottleConfig, chunk, BMAX);
      PackStep(bottleParcels, bLeft, bottleConfig, BMAX);
      parcels := parcels + [ParcelFor(rule)];
      bottleParcels := bottleParcels + [ParcelFor(rule)];
      bLeft := bLeft - chunk;
    }
    assert Chunks(0, BMAX) == [];
    assert parcels == ParcelsOf(Chunks(RoundCount(gallons), GMAX), gallonConfig, GMAX)
                    + ParcelsOf(Chunks(RoundCount(bottles), BMAX), bottleConfig, BMAX);
    if parcels == [] {
      parcels := [FALLBACK_PARCEL];
    }
  }

  // ---- counting units -----------------------------------------------------------

  /** A requested line: its name and the two quantity fields, each as `Number(...)`
      sees it. */
  datatype Item = Item(name: Option<string>, quantity: Option<JsNum>, qty: Option<JsNum>)

  /** `item.quantity ?? item.qty ?? 1`, then at least 1 when finite, else 1. */
  function UnitQty(it: Item): (r: real)
    ensures r >= 1.0
  {
    var raw := if it.quantity.Some? then it.quantity else it.qty;
    match raw
    case Some(Finite(v)) => if v >= 1.0 then v else 1.0
    case _ => 1.0
  }

  /** A name containing "gallon" in any letter case is gallons; everything else bottles. */
  predicate IsGallon(it: Item) {
    Contains(Lower(it.name.GetOr("")), "gallon")
  }

  function Gallons(items: seq<Item>): real {
    if items == [] then 0.0
    else Gallons(items[..|items| - 1]) + (if IsGallon(items[|items| - 1]) then UnitQty(items[|items| - 1]) else 0.0)
  }

  function Bottles(items: seq<Item>): real {
    if items == [] then 0.0
    else Bottles(items[..|items| - 1]) + (if IsGallon(items[|items| - 1]) then 0.0 else UnitQty(items[|items| - 1]))
  }

  function TotalQty(items: seq<Item>): real {
    if items == [] then 0.0 else TotalQty(items[..|items| - 1]) + UnitQty(items[|items| - 1])
  }

  /** Every item lands in exactly one of the two counts, so together they are the
      sum of the per-item quantities, at least one per item. */
  lemma {:induction false} UnitsPartition(items: seq<Item>)
    ensures Bottles(items) + Gallons(items) == TotalQty(items)
    ensures TotalQty(items) >= |items| as real
    ensures Bottles(items) >= 0.0 && Gallons(items) >= 0.0
  {
    if items != [] {
      UnitsPartition(items[..|items| - 1]);
    }
  }

  /** Classification ignores letter case: upper-casing a name does not move it. */
  lemma ClassificationIgnoresCase(it: Item)
    ensures IsGallon(it) == IsGallon(it.(name := Some(Upper(it.name.GetOr("")))))
  {
    var s := it.name.GetOr("");
    assert Lower(Upper(s)) == Lower(s) by {
      forall i | 0 <= i < |s| ensures Lower(Upper(s))[i] == Lower(s)[i] {
        var c := s[i];
        assert LowerChar(UpperChar(c)) == LowerChar(c);
      }
    }
  }

  /** `parseUnits(items)` */
  method ParseUnits(items: seq<Item>) returns (bottles: real, gallons: real)
    ensures bottles == Bottles(items) && gallons == Gallons(items)
  {
    bottles, gallons := 0.0, 0.0;
    for i := 0 to |items|
      invariant bottles == Bottles(items[..i]) && gallons == Gallons(items[..i])
    {
      assert items[..i + 1][..i] == items[..i];
      var qty := UnitQty(items[i]);
      if IsGallon(items[i]) {
        gallons := gallons + qty;
      } else {
        bottles := bottles + qty;
      }
    }
    assert items[..|items|] == items;
  }

  // ---- destination --------------------------------------------------------------

  /** An address in any of the accepted request shapes; `address` is the one level
      of nesting the route unwraps. */
  datatype AddressInput = AddressInput(
    name: Option<string>, line1: Option<string>, line2: Option<string>,
    city: Option<string>, state: Option<string>,
    postal_code: Option<string>, postalCode: Option<string>,
    country: Option<string>, address: Option<AddressInput>)

  datatype Body = Body(
    name: Option<string>,
    address: Option<AddressInput>, toAddress: Option<AddressInput>,
    addr: Option<AddressInput>, address_to: Option<AddressInput>,
    items: Option<seq<Item>>)

  /** The destination as sent to the rate service. */
  datatype ToAddress = ToAddress(
    name: string, street1: string, street2: string, city: string,
    state: string, zip: string, country: string)

  const NO_ADDRESS: AddressInput := AddressInput(None, None, None, None, None, None, None, None, None)

  /** `body.address ?? body.toAddress ?? body.addr ?? body.address_to ?? {}`,
      then `addr.address` if that is present. */
  function ChosenAddress(body: Body): AddressInput {
    var a :=
      if body.address.Some? then body.address.value
      else if body.toAddress.Some? then body.toAddress.value
      else if body.addr.Some? then body.addr.value
      else if body.address_to.Some? then body.address_to.value
      else NO_ADDRESS;
    if a.address.Some? then a.address.value else a
  }

  function Normalize(body: Body): (t: ToAddress)
    ensures t.country == Upper(OrElse(ChosenAddress(body).country, "US"))
    ensures t.zip == "" <==> !Truthy(ChosenAddress(body).postal_code) && !Truthy(ChosenAddress(body).postalCode)
  {
    var a := ChosenAddress(body);
    ToAddress(
      OrElse(body.name, OrElse(a.name, "")),
      OrElse(a.line1, ""),
      OrElse(a.line2, ""),
      OrElse(a.city, ""),
      OrElse(a.state, ""),
      OrElse(a.postal_code, OrElse(a.postalCode, "")),
      Upper(OrElse(a.country, "US")))
  }

  const NOT_US_ERROR: string := "We currently only ship within the United States."
  const NO_ZIP_ERROR: string := "Please enter a valid U.S. ZIP code."

  /** What the route sends upstream once the guards pass. */
  datatype ShipmentRequest = ShipmentRequest(to: ToAddress, parcels: seq<Parcel>)

  datatype Prepared = Refused(error: string) | Ready(request: ShipmentRequest)

  /** Normalise, refuse a non-US destination, then a missing ZIP, then count units
      and build the parcels. */
  function Prepare(body: Body): (r: Prepared)
    ensures Normalize(body).country != "US" ==> r == Refused(NOT_US_ERROR)
    ensures Normalize(body).country == "US" && Normalize(body).zip == "" ==> r == Refused(NO_ZIP_ERROR)
    ensures r.Ready? ==> (r.request.to == Normalize(body) && r.request.to.country == "US"
                          && r.request.to.zip != "" && |r.request.parcels| >= 1)
    ensures Normalize(body).country == "US" && Normalize(body).zip != "" ==>
              r.Ready? && r.request.to == Normalize(body)
              && r.request.parcels == PlannedParcels(Bottles(body.items.GetOr([])), Gallons(body.items.GetOr([])))
  {
    var to := Normalize(body);
    if to.country != "US" then Refused(NOT_US_ERROR)
    else if to.zip == "" then Refused(NO_ZIP_ERROR)
    else
      var items := body.items.GetOr([]);
      Ready(ShipmentRequest(to, PlannedParcels(Bottles(items), Gallons(items))))
  }

  // ---- rates ----------------------------------------------------------------------

  /** A rate as the upstream service returns it: `amount` is `Number(amount)` in
      dollars and `estimatedDays` is `Number(estimated_days)` when that is a
      finite integer (None for a missing or non-numeric value). */
  datatype RawRate = RawRate(
    currency: Option<string>, token: Option<string>, provider: Option<string>,
    objectId: string, serviceName: Option<string>,
    estimatedDays: Option<int>, amount: real)

  /** A message of the upstream service, with `json` standing for `JSON.stringify(m)`. */
  datatype Message = Message(text: Option<string>, code: Option<string>, json: string)

  datatype Upstream =
    | HttpError(text: string)
    | Shipment(rates: Option<seq<RawRate>>, messages: Option<seq<Message>>)

  /** `m.text || m.code || JSON.stringify(m)` */
  function MessageText(m: Message): string {
    OrElse(m.text, OrElse(m.code, m.json))
  }

  function MessageTexts(ms: seq<Message>): (r: seq<string>)
    ensures |r| == |ms| && forall i :: 0 <= i < |ms| ==> r[i] == MessageText(ms[i])
  {
    seq(|ms|, i requires 0 <= i < |ms| => MessageText(ms[i]))
  }

  /** A rate offered to the shopper. */
  datatype ShippingRate = ShippingRate(id: string, name: string, amount: int, daysMin: int, daysMax: int)

  /** The route's answer: rates, or no rates and an error. */
  datatype Quote = Quote(rates: seq<ShippingRate>, error: Option<string>)

  predicate IsUpsGround(r: RawRate) {
    r.currency == Some("USD") && Lower(r.token.GetOr("")) == "ups_ground"
  }

  predicate IsAnyUps(r: RawRate) {
    r.currency == Some("USD") && Contains(Upper(r.provider.GetOr("")), "UPS")
  }

  function Filter(rs: seq<RawRate>, keep: RawRate -> bool): (r: seq<RawRate>)
    ensures forall x :: x in r <==> x in rs && keep(x)
  {
    if rs == [] then [] else (if keep(rs[0]) then [rs[0]] else []) + Filter(rs[1..], keep)
  }

  /** Strict UPS Ground first, any USD UPS rate when there is none. */
  function Usable(rs: seq<RawRate>): seq<RawRate> {
    var strict := Filter(rs, IsUpsGround);
    if strict != [] then strict else Filter(rs, IsAnyUps)
  }

  /** `Number(estimated_days) || undefined` */
  function Estimate(r: RawRate): Option<int> {
    if r.estimatedDays.Some? && r.estimatedDays.value != 0 then r.estimatedDays else None
  }

  function Label(r: RawRate): string {
    if Truthy(r.serviceName) then "UPS " + r.serviceName.value
    else if Truthy(r.token) then "UPS " + r.token.value
    else "UPS"
  }

  /** One mapped rate: 2..5 days when there is no estimate, est..est+1 otherwise. */
  function ToRate(r: RawRate): (s: ShippingRate)
    ensures s.daysMin < s.daysMax
    ensures Estimate(r).None? ==> s.daysMin == 2 && s.daysMax == 5
    ensures Estimate(r).Some? ==> s.daysMin == Estimate(r).value && s.daysMax == s.daysMin + 1
    ensures s.id == r.objectId
    ensures s.amount as real - 0.5 <= r.amount * 100.0 < s.amount as real + 0.5
  {
    var est := Estimate(r);
    ShippingRate(r.objectId, Label(r), Round(r.amount * 100.0),
      if est.Some? then est.value else 2,
      if est.Some? then est.value + 1 else 5)
  }

  function MapRates(rs: seq<RawRate>): (r: seq<ShippingRate>)
    ensures |r| == |rs|
    ensures forall i :: 0 <= i < |rs| ==> r[i] == ToRate(rs[i])
  {
    seq(|rs|, i requires 0 <= i < |rs| => ToRate(rs[i]))
  }

  predicate SortedByAmount(rs: seq<ShippingRate>) {
    forall i, j :: 0 <= i < j < |rs| ==> rs[i].amount <= rs[j].amount
  }

  /** Insert after every rate that is not dearer, so equal prices keep their order. */
  function Insert(x: ShippingRate, rs: seq<ShippingRate>): (r: seq<ShippingRate>)
    ensures |r| == |rs| + 1
    ensures multiset(r) == multiset(rs) + multiset{x}
  {
    if rs == [] then [x]
    else if x.amount < rs[0].amount then [x] + rs
    else
      assert rs == [rs[0]] + rs[1..];
      [rs[0]] + Insert(x, rs[1..])
  }

  /** Every rate costs at least `m`. */
  predicate NoneBelow(m: int, rs: seq<ShippingRate>) {
    forall j :: 0 <= j < |rs| ==> m <= rs[j].amount
  }

  lemma {:induction false} InsertNoneBelow(m: int, x: ShippingRate, rs: seq<ShippingRate>)
    requires NoneBelow(m, rs) && m <= x.amount
    ensures NoneBelow(m, Insert(x, rs))
  {
    if rs != [] && x.amount >= rs[0].amount {
      InsertNoneBelow(m, x, rs[1..]);
      var tail := Insert(x, rs[1..]);
      assert Insert(x, rs) == [rs[0]] + tail;
    }
  }

  /** A rate no dearer than sorted rates, put in front, keeps them sorted. */
  lemma ConsSorted(h: ShippingRate, tail: seq<ShippingRate>)
    requires SortedByAmount(tail) && NoneBelow(h.amount, tail)
    ensures SortedByAmount([h] + tail)
  {
    var r := [h] + tail;
    forall a, b | 0 <= a < b < |r|
      ensures r[a].amount <= r[b].amount
    {
      assert r[b] == tail[b - 1];
      if a > 0 {
        assert r[a] == tail[a - 1];
      }
    }
  }

  /** Inserting into sorted rates keeps them sorted. */
  lemma {:induction false} InsertSorted(x: ShippingRate, rs: seq<ShippingRate>)
    requires SortedByAmount(rs)
    ensures SortedByAmount(Insert(x, rs))
  {
    if rs != [] && x.amount >= rs[0].amount {
      var rest := rs[1..];
      InsertSorted(x, rest);
      assert NoneBelow(rs[0].amount, rest) by {
        forall j | 0 <= j < |rest| ensures rs[0].amount <= rest[j].amount {
          assert rest[j] == rs[j + 1];
        }
      }
      InsertNoneBelow(rs[0].amount, x, rest);
      ConsSorted(rs[0], Insert(x, rest));
    } else if rs != [] {
      assert NoneBelow(x.amount, rs);
      ConsSorted(x, rs);
    }
  }

  /** `.sort((a, b) => a.amount - b.amount)`: ascending by price, a permutation. */
  function SortByAmount(rs: seq<ShippingRate>): (r: seq<ShippingRate>)
    ensures |r| == |rs|
    ensures forall y :: y in r <==> y in rs
    ensures SortedByAmount(r)
    ensures multiset(r) == multiset(rs)
  {
    if rs == [] then []
    else
      var init := rs[..|rs| - 1];
      assert rs == init + [rs[|rs| - 1]];
      InsertSorted(rs[|rs| - 1], SortByAmount(init));
      var r := Insert(rs[|rs| - 1], SortByAmount(init));
      assert forall y :: y in r <==> y in multiset(r);
      r
  }

  const NO_MESSAGES: string := "No messages from Shippo"
  const NO_UPS_PREFIX: string := "No UPS shipping rates were returned for this address. Error: "

  /** Turn the upstream answer into the route's answer. */
  function QuoteFrom(u: Upstream): (q: Quote)
    ensures q.error.None? <==> q.rates != []
    ensures SortedByAmount(q.rates)
    ensures forall x :: x in q.rates ==> x.daysMin < x.daysMax
  {
    match u
    case HttpError(text) =>
      Quote([], Some(if text != "" then text else "Shippo error"))
    case Shipment(rates, messages) =>
      var usable := Usable(rates.GetOr([]));
      if usable == [] then
        Quote([], Some(NO_UPS_PREFIX + (if messages.Some? then Join(MessageTexts(messages.value), " | ") else NO_MESSAGES)))
      else
        var mapped := MapRates(usable);
        var sorted := SortByAmount(mapped);
        Quote(sorted, None)
  }

  /** The three tiers: strict UPS Ground when there is any, else any USD UPS rate,
      else no rates and an error; what is offered is exactly the mapped tier. */
  lemma QuoteTiers(rates: seq<RawRate>, messages: Option<seq<Message>>)
    ensures var q := QuoteFrom(Shipment(Some(rates), messages));
            var strict, anyUps := Filter(rates, IsUpsGround), Filter(rates, IsAnyUps);
            (strict != [] ==> multiset(q.rates) == multiset(MapRates(strict))) &&
            (strict == [] && anyUps != [] ==> multiset(q.rates) == multiset(MapRates(anyUps))) &&
            (strict == [] && anyUps == [] ==> q.rates == [] && q.error.Some?)
  {
  }

  /** `POST /api/shipping`, with the rate service as the function `shippo`. */
  function Post(body: Body, shippo: ShipmentRequest -> Upstream): (q: Quote)
    ensures Normalize(body).country != "US" ==> q == Quote([], Some(NOT_US_ERROR))
    ensures Normalize(body).country == "US" && Normalize(body).zip == "" ==> q == Quote([], Some(NO_ZIP_ERROR))
    ensures Prepare(body).Ready? ==> q == QuoteFrom(shippo(Prepare(body).request))
    ensures q.error.None? <==> q.rates != []
    ensures SortedByAmount(q.rates)
    ensures forall x :: x in q.rates ==> x.daysMin < x.daysMax
  {
    match Prepare(body)
    case Refused(e) => Quote([], Some(e))
    case Ready(req) => QuoteFrom(shippo(req))
  }
}
