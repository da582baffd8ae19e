/** The product catalogue: Stripe products mapped one to one onto the sauce items
    the storefront shows, with their bar colour class. */
module Catalog {
  import opened Common

  /** A product's expanded default price. */
  datatype Price = Price(id: string, unit_amount: Option<int>, currency: string)

  /** A Stripe product: the fields the mapping reads. */
  datatype Product = Product(
    id: string, name: string, description: Option<string>,
    flavor_description: Option<string>, bar_color: Option<string>,
    images: Option<seq<string>>, default_price: Option<Price>)

  /** A sauce item; `barClass` is what the lookup yields, a class name or not. */
  datatype SauceItem = SauceItem(
    id: string, name: string, desc: string, barClass: BarValue,
    price: Option<int>, currency: Option<string>, priceId: Option<string>, image: Option<string>)

  /** The listing call: it failed, or returned its products. */
  datatype Listing = ListFailed | Listed(products: seq<Product>)

  const DEFAULT_BAR: string := "bg-maroon"

  /** The colour table's own entries. */
  const BAR: map<string, string> := map["maroon" := "bg-maroon", "fire" := "bg-fire", "rooster" := "bg-rooster"]

  /** Lower-case names every object inherits, so that indexing a plain object
      literal with them finds a value that is not in its table. */
  const INHERITED: set<string> := {"constructor", "__proto__"}

  /** What `BAR[key]` yields: a table entry, an inherited member (a function or
      the prototype object, both truthy and neither a string), or undefined. */
  datatype BarValue = ClassName(name: string) | InheritedMember(key: string) | Undefined

  function BarIndex(key: string): (r: BarValue)
    ensures key in BAR ==> r == ClassName(BAR[key])
    ensures key !in BAR && key in INHERITED ==> r == InheritedMember(key)
    ensures key !in BAR && key !in INHERITED ==> r == Undefined
  {
    if key in BAR then ClassName(BAR[key])
    else if key in INHERITED then InheritedMember(key)
    else Undefined
  }

  /** The `barClass` value as written: `BAR[...] || "bg-maroon"` keeps any truthy
      value, inherited members included. */
  function BarClassAsWritten(barColor: Option<string>): (r: BarValue)
    ensures !r.Undefined?
    ensures Lower(OrElse(barColor, "")) in BAR ==> r == ClassName(BAR[Lower(OrElse(barColor, ""))])
    ensures r.ClassName? ==> r.name in BAR.Values
    ensures r.InheritedMember? <==> Lower(OrElse(barColor, "")) !in BAR && Lower(OrElse(barColor, "")) in INHERITED
  {
    assert BAR["maroon"] == DEFAULT_BAR;
    match BarIndex(Lower(OrElse(barColor, "")))
    case ClassName(c) => ClassName(c)
    case InheritedMember(k) => InheritedMember(k)
    case Undefined => ClassName(DEFAULT_BAR)
  }

  /** A colour named after an inherited member puts a non-string into `barClass`. */
  lemma ConstructorColourIsNotAClass()
    ensures BarClassAsWritten(Some("Constructor")) == InheritedMember("constructor")
  {
    assert Lower("Constructor") == "constructor";
  }

  /** The class looked up among the table's own entries only: a known colour,
      in any case, gives its class; every other value gives the default. */
  function BarClass(barColor: Option<string>): (r: string)
    ensures r in BAR.Values
    ensures Lower(OrElse(barColor, "")) in BAR ==> r == BAR[Lower(OrElse(barColor, ""))]
    ensures Lower(OrElse(barColor, "")) !in BAR ==> r == DEFAULT_BAR
  {
    var key := Lower(OrElse(barColor, ""));
    assert BAR["maroon"] == DEFAULT_BAR;
    if key in BAR then BAR[key] else DEFAULT_BAR
  }

  /** Where the table has the colour, both lookups agree. */
  lemma BarClassAgreesOnTable(barColor: Option<string>)
    requires Lower(OrElse(barColor, "")) !in INHERITED
    ensures BarClassAsWritten(barColor) == ClassName(BarClass(barColor))
  {
  }

  /** One product as a sauce item, as written: `barClass` is whatever
      `BAR[...] || "bg-maroon"` yields. */
  function ToSauce(p: Product): (r: SauceItem)
    ensures r.id == p.id && r.name == p.name
    ensures r.desc == OrElse(p.flavor_description, OrElse(p.description, ""))
    ensures r.barClass == BarClassAsWritten(p.bar_color)
    ensures r.price == (if p.default_price.Some? then p.default_price.value.unit_amount else None)
    ensures r.currency.Some? <==> p.default_price.Some?
    ensures r.priceId.Some? <==> p.default_price.Some? && p.default_price.value.id != ""
    ensures r.image.Some? <==> p.images.Some? && |p.images.value| > 0
    ensures r.image.Some? ==> r.image.value == p.images.value[0]
  {
    var dp := p.default_price;
    SauceItem(
      p.id, p.name,
      OrElse(p.flavor_description, OrElse(p.description, "")),
      BarClassAsWritten(p.bar_color),
      if dp.Some? then dp.value.unit_amount else None,
      if dp.Some? then Some(dp.value.currency) else None,
      if dp.Some? && dp.value.id != "" then Some(dp.value.id) else None,
      if p.images.Some? && |p.images.value| > 0 then Some(p.images.value[0]) else None)
  }

  /** The same item with the class looked up among the table's own entries. */
  function ToSauceCorrected(p: Product): (r: SauceItem)
    ensures r == ToSauce(p).(barClass := ClassName(BarClass(p.bar_color)))
    ensures r.barClass.ClassName? && r.barClass.name in BAR.Values
  {
    ToSauce(p).(barClass := ClassName(BarClass(p.bar_color)))
  }

  /** `getSauceProducts`, as written: nothing when the listing fails, otherwise
      one item per product, in the listing's order. */
  function SauceProducts(l: Listing): (r: seq<SauceItem>)
    ensures l.ListFailed? ==> r == []
    ensures l.Listed? ==> |r| == |l.products|
    ensures l.Listed? ==> forall i :: 0 <= i < |r| ==> r[i] == ToSauce(l.products[i])
  {
    match l
    case ListFailed => []
    case Listed(ps) => seq(|ps|, i requires 0 <= i < |ps| => ToSauce(ps[i]))
  }

  /** The listing with the corrected class lookup. */
  function SauceProductsCorrected(l: Listing): (r: seq<SauceItem>)
    ensures l.ListFailed? ==> r == []
    ensures l.Listed? ==> |r| == |l.products|
    ensures l.Listed? ==> forall i :: 0 <= i < |r| ==> r[i] == ToSauceCorrected(l.products[i])
  {
    match l
    case ListFailed => []
    case Listed(ps) => seq(|ps|, i requires 0 <= i < |ps| => ToSauceCorrected(ps[i]))
  }

  /** As written, each item keeps its product's id; its bar class is one of the
      three classes unless the colour names an inherited member, which then
      passes through in place of a class. */
  lemma ItemsKeepIds(l: Listing, i: int)
    requires l.Listed? && 0 <= i < |l.products|
    ensures SauceProducts(l)[i].id == l.products[i].id
    ensures var b := SauceProducts(l)[i].barClass;
            var key := Lower(OrElse(l.products[i].bar_color, ""));
            && (key !in INHERITED ==> b.ClassName? && b.name in {"bg-maroon", "bg-fire", "bg-rooster"})
            && (key in INHERITED ==> b == InheritedMember(key))
  {
    var key := Lower(OrElse(l.products[i].bar_color, ""));
    var b := SauceProducts(l)[i].barClass;
    assert b == BarClassAsWritten(l.products[i].bar_color);
    BarValues();
    assert key in INHERITED ==> key !in BAR;
  }

  /** Corrected, each item keeps its id and always shows one of the three classes. */
  lemma ItemsKeepIdsCorrected(l: Listing, i: int)
    requires l.Listed? && 0 <= i < |l.products|
    ensures SauceProductsCorrected(l)[i].id == l.products[i].id
    ensures SauceProductsCorrected(l)[i].barClass.ClassName?
    ensures SauceProductsCorrected(l)[i].barClass.name in {"bg-maroon", "bg-fire", "bg-rooster"}
  {
    BarValues();
  }

  lemma BarValues()
    ensures BAR.Values == {"bg-maroon", "bg-fire", "bg-rooster"}
  {
    assert BAR["maroon"] == "bg-maroon" && BAR["fire"] == "bg-fire" && BAR["rooster"] == "bg-rooster";
  }
}
