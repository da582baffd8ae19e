/** The shopper's cart: a list of lines keyed by (productId, priceId), with
    add-or-merge, remove, set-quantity and clear, and the derived count,
    subtotal and currency. */
module Cart {
  import opened Common
  import OrderMath

  /** The local-storage key the cart is persisted under. */
  const LS_KEY: string := "how_cart_v1"

  /** A line without its quantity (`Omit<CartItem, "qty">`). */
  datatype Product = Product(
    productId: string,
    priceId: Option<string>,
    name: string,
    price: Option<int>,
    currency: Option<string>,
    image: Option<string>)

  datatype CartItem = CartItem(product: Product, qty: int)

  /** The optional `priceId` argument of remove/setQty: omitted (every variant of
      the product) or given, where a given `null` selects lines whose priceId is null. */
  datatype Variant = AllVariants | Only(priceId: Option<string>)

  /** The identity of a line or a product. */
  datatype Key = Key(productId: string, priceId: Option<string>)

  function KeyOf(p: Product): Key { Key(p.productId, p.priceId) }

  function ItemKey(i: CartItem): Key { KeyOf(i.product) }

  /** No two lines share a (productId, priceId). */
  ghost predicate KeysUnique(items: seq<CartItem>) {
    forall j, k :: 0 <= j < k < |items| ==> ItemKey(items[j]) != ItemKey(items[k])
  }

  // ---- add ------------------------------------------------------------------

  /** `prev.find(...)`: the first line at or after `k` with key `key`. */
  function FindFrom(items: seq<CartItem>, key: Key, k: nat): (r: Option<nat>)
    requires k <= |items|
    decreases |items| - k
    ensures r.Some? ==> k <= r.value < |items| && ItemKey(items[r.value]) == key
    ensures r.Some? ==> forall j :: k <= j < r.value ==> ItemKey(items[j]) != key
    ensures r.None? ==> forall j :: k <= j < |items| ==> ItemKey(items[j]) != key
  {
    if k == |items| then None
    else if ItemKey(items[k]) == key then Some(k)
    else FindFrom(items, key, k + 1)
  }

  function Find(items: seq<CartItem>, key: Key): Option<nat>
    ensures Find(items, key).Some? ==> Find(items, key).value < |items|
  {
    FindFrom(items, key, 0)
  }

  /** `add(item, qty)`: bump the first line with the same key by `qty`, keeping
      that line's own fields, or append a new line. */
  function AddTo(items: seq<CartItem>, p: Product, qty: int): seq<CartItem> {
    match Find(items, KeyOf(p))
    case Some(k) => items[k := items[k].(qty := items[k].qty + qty)]
    case None => items + [CartItem(p, qty)]
  }

  /** Adding a key that is present changes only that line's quantity, by `qty`. */
  lemma AddMerges(items: seq<CartItem>, p: Product, qty: int, k: nat)
    requires KeysUnique(items)
    requires k < |items| && ItemKey(items[k]) == KeyOf(p)
    ensures |AddTo(items, p, qty)| == |items|
    ensures AddTo(items, p, qty)[k] == items[k].(qty := items[k].qty + qty)
    ensures forall j :: 0 <= j < |items| && j != k ==> AddTo(items, p, qty)[j] == items[j]
  {
    var f := Find(items, KeyOf(p));
    assert f.Some?;
  }

  /** Adding a new key appends exactly one line, at the end. */
  lemma AddAppends(items: seq<CartItem>, p: Product, qty: int)
    requires forall j :: 0 <= j < |items| ==> ItemKey(items[j]) != KeyOf(p)
    ensures AddTo(items, p, qty) == items + [CartItem(p, qty)]
  {
    assert Find(items, KeyOf(p)).None?;
  }

  /** `add` keeps the keys unique. */
  lemma AddKeepsKeysUnique(items: seq<CartItem>, p: Product, qty: int)
    requires KeysUnique(items)
    ensures KeysUnique(AddTo(items, p, qty))
  {
    var r := AddTo(items, p, qty);
    match Find(items, KeyOf(p))
    case Some(k) =>
      assert forall j :: 0 <= j < |r| ==> ItemKey(r[j]) == ItemKey(items[j]);
    case None =>
      assert forall j :: 0 <= j < |items| ==> ItemKey(r[j]) == ItemKey(items[j]);
  }

  // ---- remove and setQty ----------------------------------------------------

  /** The filter condition shared by remove and setQty. */
  predicate Selects(i: CartItem, productId: string, v: Variant) {
    i.product.productId == productId && (v.AllVariants? || i.product.priceId == v.priceId)
  }

  /** `remove(productId, priceId?)`: drop the selected lines. */
  function RemoveFrom(items: seq<CartItem>, productId: string, v: Variant): (r: seq<CartItem>)
    ensures |r| <= |items|
    ensures forall x :: x in r <==> x in items && !Selects(x, productId, v)
  {
    if items == [] then []
    else (if Selects(items[0], productId, v) then [] else [items[0]]) + RemoveFrom(items[1..], productId, v)
  }

  lemma {:induction false} RemoveAppend(a: seq<CartItem>, b: seq<CartItem>, productId: string, v: Variant)
    ensures RemoveFrom(a + b, productId, v) == RemoveFrom(a, productId, v) + RemoveFrom(b, productId, v)
    decreases |a|
  {
    if a == [] {
      assert a + b == b;
    } else {
      assert (a + b)[1..] == a[1..] + b;
      RemoveAppend(a[1..], b, productId, v);
    }
  }

  /** The lines that stay keep their relative order: the j-th line, if kept, sits
      after exactly the kept lines that came before it. */
  lemma RemoveKeepsOrder(items: seq<CartItem>, productId: string, v: Variant, j: nat)
    requires j < |items| && !Selects(items[j], productId, v)
    ensures var r, before := RemoveFrom(items, productId, v), RemoveFrom(items[..j], productId, v);
            |before| < |r| && r[|before|] == items[j]
  {
    assert items == items[..j] + items[j..];
    RemoveAppend(items[..j], items[j..], productId, v);
    assert items[j..][0] == items[j];
  }

  /** `remove` keeps the keys unique. */
  lemma {:induction false} RemoveKeepsKeysUnique(items: seq<CartItem>, productId: string, v: Variant)
    requires KeysUnique(items)
    ensures KeysUnique(RemoveFrom(items, productId, v))
    decreases |items|
  {
    if items != [] {
      var rest := RemoveFrom(items[1..], productId, v);
      assert KeysUnique(items[1..]) by {
        forall j, k | 0 <= j < k < |items[1..]|
          ensures ItemKey(items[1..][j]) != ItemKey(items[1..][k])
        {
          assert items[1..][j] == items[j + 1] && items[1..][k] == items[k + 1];
        }
      }
      RemoveKeepsKeysUnique(items[1..], productId, v);
      forall x | x in rest ensures ItemKey(x) != ItemKey(items[0]) {
        var k :| 0 <= k < |items[1..]| && items[1..][k] == x;
        assert items[k + 1] == x;
      }
    }
  }

  /** `setQty(productId, qty, priceId?)`: a non-positive quantity removes, any
      other overwrites the quantity of every selected line. */
  function SetQtyIn(items: seq<CartItem>, productId: string, qty: int, v: Variant): seq<CartItem> {
    if qty <= 0 then RemoveFrom(items, productId, v)
    else seq(|items|, i requires 0 <= i < |items| =>
           (if Selects(items[i], productId, v) then items[i].(qty := qty) else items[i]))
  }

  /** With a positive quantity, setQty keeps the length, sets the selected lines'
      quantity and leaves every other line as it was. */
  lemma SetQtyOverwrites(items: seq<CartItem>, productId: string, qty: int, v: Variant)
    requires qty > 0
    ensures |SetQtyIn(items, productId, qty, v)| == |items|
    ensures forall j :: 0 <= j < |items| ==>
      var r := SetQtyIn(items, productId, qty, v)[j];
      r.product == items[j].product &&
      r.qty == (if Selects(items[j], productId, v) then qty else items[j].qty)
  {
  }

  /** setQty with quantity zero or below is exactly remove. */
  lemma SetQtyNonPositiveIsRemove(items: seq<CartItem>, productId: string, qty: int, v: Variant)
    requires qty <= 0
    ensures SetQtyIn(items, productId, qty, v) == RemoveFrom(items, productId, v)
  {
  }

  /** setQty keeps the keys unique. */
  lemma SetQtyKeepsKeysUnique(items: seq<CartItem>, productId: string, qty: int, v: Variant)
    requires KeysUnique(items)
    ensures KeysUnique(SetQtyIn(items, productId, qty, v))
  {
    if qty <= 0 {
      RemoveKeepsKeysUnique(items, productId, v);
    } else {
      var r := SetQtyIn(items, productId, qty, v);
      assert forall j :: 0 <= j < |r| ==> ItemKey(r[j]) == ItemKey(items[j]);
    }
  }

  // ---- derived values -------------------------------------------------------

  /** `count`: the sum of the quantities, folded from the left. */
  function Count(items: seq<CartItem>): int {
    if items == [] then 0 else Count(items[..|items| - 1]) + items[|items| - 1].qty
  }

  /** `subtotal`: the sum of (price || 0) x qty, folded from the left. */
  function Subtotal(items: seq<CartItem>): int {
    if items == [] then 0
    else Subtotal(items[..|items| - 1]) + items[|items| - 1].product.price.GetOr(0) * items[|items| - 1].qty
  }

  /** `currency`: the first line's currency, or null for an empty cart (an empty
      currency string counts as missing, `|| null`). */
  function Currency(items: seq<CartItem>): (r: Option<string>)
    ensures items == [] ==> r.None?
    ensures r.Some? ==> r == items[0].product.currency && r.value != ""
    ensures items != [] && Truthy(items[0].product.currency) ==> r == items[0].product.currency
  {
    if items != [] && Truthy(items[0].product.currency) then items[0].product.currency else None
  }

  lemma {:induction false} CountUpdate(items: seq<CartItem>, k: nat, x: CartItem)
    requires k < |items|
    ensures Count(items[k := x]) == Count(items) - items[k].qty + x.qty
    decreases |items|
  {
    var n := |items| - 1;
    if k < n {
      assert items[k := x][..n] == items[..n][k := x];
      CountUpdate(items[..n], k, x);
    } else {
      assert items[k := x][..n] == items[..n];
    }
  }

  /** The count after `add(p, qty)` is the count before plus `qty`. */
  lemma AddCount(items: seq<CartItem>, p: Product, qty: int)
    ensures Count(AddTo(items, p, qty)) == Count(items) + qty
  {
    match Find(items, KeyOf(p))
    case Some(k) =>
      CountUpdate(items, k, items[k].(qty := items[k].qty + qty));
    case None =>
      assert (items + [CartItem(p, qty)])[..|items|] == items;
  }

  /** Adding a new key raises the subtotal by its price times `qty`. */
  lemma AddNewSubtotal(items: seq<CartItem>, p: Product, qty: int)
    requires forall j :: 0 <= j < |items| ==> ItemKey(items[j]) != KeyOf(p)
    ensures Subtotal(AddTo(items, p, qty)) == Subtotal(items) + p.price.GetOr(0) * qty
  {
    AddAppends(items, p, qty);
    assert (items + [CartItem(p, qty)])[..|items|] == items;
  }

  /** The lines order-math sees. */
  function AsLines(items: seq<CartItem>): (r: seq<OrderMath.CartLine>)
    ensures |r| == |items|
  {
    seq(|items|, i requires 0 <= i < |items| =>
      OrderMath.CartLine(items[i].product.price, Some(items[i].qty)))
  }

  /** The cart's subtotal agrees with the order subtotal when every line keeps
      the data-model invariant (price at least 0, quantity at least 1). */
  lemma {:induction false} SubtotalAgreesWithOrderMath(items: seq<CartItem>)
    requires forall j :: 0 <= j < |items| ==> items[j].qty >= 1 && items[j].product.price.GetOr(0) >= 0
    ensures Subtotal(items) == OrderMath.SubtotalFrom(AsLines(items))
    decreases |items|
  {
    if items != [] {
      var n := |items| - 1;
      assert AsLines(items)[..n] == AsLines(items[..n]);
      SubtotalAgreesWithOrderMath(items[..n]);
    }
  }

  // ---- the store --------------------------------------------------------------

  /** The cart provider's `items` state, replaced by each operation. */
  class CartStore {
    var items: seq<CartItem>

    ghost predicate Valid()
      reads this
    {
      KeysUnique(items)
    }

    constructor ()
      ensures items == [] && Valid()
    {
      items := [];
    }

    method Add(p: Product, qty: int := 1)
      modifies this
      ensures items == AddTo(old(items), p, qty)
      ensures old(Valid()) ==> Valid()
      ensures Count(items) == Count(old(items)) + qty
      ensures old(Valid()) ==> forall k :: 0 <= k < |old(items)| && ItemKey(old(items)[k]) == KeyOf(p) ==>
                && |items| == |old(items)|
                && items[k] == old(items)[k].(qty := old(items)[k].qty + qty)
                && forall j :: 0 <= j < |items| && j != k ==> items[j] == old(items)[j]
    {
      ghost var before := items;
      if Valid() {
        AddKeepsKeysUnique(items, p, qty);
        forall k | 0 <= k < |before| && ItemKey(before[k]) == KeyOf(p)
          ensures var after := AddTo(before, p, qty);
                  && |after| == |before|
                  && after[k] == before[k].(qty := before[k].qty + qty)
                  && forall j :: 0 <= j < |after| && j != k ==> after[j] == before[j]
        {
          AddMerges(before, p, qty, k);
        }
      }
      AddCount(items, p, qty);
      items := AddTo(items, p, qty);
    }

    method Remove(productId: string, v: Variant)
      modifies this
      ensures items == RemoveFrom(old(items), productId, v)
      ensures old(Valid()) ==> Valid()
    {
      if Valid() {
        RemoveKeepsKeysUnique(items, productId, v);
      }
      items := RemoveFrom(items, productId, v);
    }

    method SetQty(productId: string, qty: int, v: Variant)
      modifies this
      ensures items == SetQtyIn(old(items), productId, qty, v)
      ensures old(Valid()) ==> Valid()
    {
      if Valid() {
        SetQtyKeepsKeysUnique(items, productId, qty, v);
      }
      if qty <= 0 {
        Remove(productId, v);
        return;
      }
      items := SetQtyIn(items, productId, qty, v);
    }

    method Clear()
      modifies this
      ensures items == [] && Valid()
    {
      items := [];
    }

    function CountValue(): int
      reads this
    {
      Count(items)
    }

    function SubtotalValue(): int
      reads this
    {
      Subtotal(items)
    }

    function CurrencyValue(): Option<string>
      reads this
    {
      Currency(items)
    }
  }
}
