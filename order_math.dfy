/** Order arithmetic in integer cents: subtotal, flat-rate shipping, 8% tax and
    the breakdown that adds them up. */
module OrderMath {
  import opened Common

  /** A line as the order helpers see it: an optional unit price in cents and an
      optional quantity. */
  datatype CartLine = CartLine(price: Option<int>, qty: Option<int>)

  /** Free shipping from $75.00. */
  const SHIPPING_THRESHOLD: int := 7500
  /** $5.99 below the threshold. */
  const FLAT_SHIP: int := 599
  /** 0.08, kept as the exact fraction 8/100. */
  const TAX_RATE: real := 0.08

  datatype Totals = Totals(subtotal: int, shipping: int, tax: int, total: int)

  /** What one line adds to the subtotal: its price clamped at 0 (missing is 0)
      times its quantity clamped at 1 (missing is 1). */
  function LineAmount(l: CartLine): (r: int)
    ensures r >= 0
    ensures l.qty.None? ==> r == Max(0, l.price.GetOr(0))
    ensures l.price.None? ==> r == 0
  {
    Max(0, l.price.GetOr(0)) * Max(1, l.qty.GetOr(1))
  }

  /** `lines.reduce((sum, l) => sum + LineAmount(l), 0)`, folded from the left. */
  function SubtotalFrom(lines: seq<CartLine>): (r: int)
    ensures r >= 0
    ensures lines == [] ==> r == 0
  {
    if lines == [] then 0
    else SubtotalFrom(lines[..|lines| - 1]) + LineAmount(lines[|lines| - 1])
  }

  lemma {:induction false} SubtotalAppend(a: seq<CartLine>, b: seq<CartLine>)
    ensures SubtotalFrom(a + b) == SubtotalFrom(a) + SubtotalFrom(b)
    decreases |b|
  {
    if b == [] {
      assert a + b == a;
    } else {
      var b' := b[..|b| - 1];
      assert (a + b)[..|a + b| - 1] == a + b';
      SubtotalAppend(a, b');
    }
  }

  lemma {:induction false} SubtotalRemoveAt(s: seq<CartLine>, i: nat)
    requires i < |s|
    ensures SubtotalFrom(s) == SubtotalFrom(s[..i] + s[i + 1..]) + LineAmount(s[i])
  {
    var pre, x, post := s[..i], s[i], s[i + 1..];
    assert s == (pre + [x]) + post;
    SubtotalAppend(pre + [x], post);
    SubtotalAppend(pre, [x]);
    SubtotalAppend(pre, post);
    assert SubtotalFrom([x]) == LineAmount(x) by {
      assert [x][..0] == [];
    }
  }

  /** The subtotal does not depend on the order of the lines. */
  lemma {:induction false} SubtotalPermutation(a: seq<CartLine>, b: seq<CartLine>)
    requires multiset(a) == multiset(b)
    ensures SubtotalFrom(a) == SubtotalFrom(b)
    decreases |a|
  {
    if a == [] {
      assert |b| == |multiset(b)| == 0;
    } else {
      var x := a[|a| - 1];
      var a' := a[..|a| - 1];
      MultisetRemoveAt(a, |a| - 1);
      assert a[|a| - 1 + 1..] == [];
      assert a[..|a| - 1] + a[|a| - 1 + 1..] == a';
      assert x in multiset(b);
      var j :| 0 <= j < |b| && b[j] == x;
      MultisetRemoveAt(b, j);
      SubtotalPermutation(a', b[..j] + b[j + 1..]);
      SubtotalRemoveAt(b, j);
    }
  }

  /** Taking out the element at `i` takes one copy of it out of the multiset. */
  lemma MultisetRemoveAt(s: seq<CartLine>, i: nat)
    requires i < |s|
    ensures multiset(s[..i] + s[i + 1..]) == multiset(s) - multiset{s[i]}
  {
    assert s == s[..i] + [s[i]] + s[i + 1..];
    assert multiset(s) == multiset(s[..i]) + multiset{s[i]} + multiset(s[i + 1..]);
  }

  /** Free when the cart is empty or at least the threshold, the flat fee otherwise. */
  function ShippingFor(subtotal: int): (r: int)
    ensures r == 0 <==> (subtotal == 0 || subtotal >= SHIPPING_THRESHOLD)
    ensures r == 0 || r == FLAT_SHIP
  {
    if subtotal == 0 || subtotal >= SHIPPING_THRESHOLD then 0 else FLAT_SHIP
  }

  /** `taxFor(subtotal, rate)`: the product rounded as `Math.round` does, so the
      result is within half a cent of the exact tax, halves going up. */
  function TaxAt(subtotal: int, rate: real): (r: int)
    ensures r as real - 0.5 <= subtotal as real * rate < r as real + 0.5
  {
    Round(subtotal as real * rate)
  }

  /** `taxFor(subtotal)` with the default rate. */
  function TaxFor(subtotal: int): int {
    TaxAt(subtotal, TAX_RATE)
  }

  /** At 8% the rounded tax is `(8s + 50) div 100`, for every integer subtotal. */
  lemma TaxClosedForm(s: int)
    ensures TaxFor(s) == (8 * s + 50) / 100
  {
    var r := TaxFor(s);
    assert r as real - 0.5 <= s as real * 0.08 < r as real + 0.5;
    assert 100 * r - 50 <= 8 * s < 100 * r + 50 by {
      assert (100 * r - 50) as real == 100.0 * (r as real - 0.5);
      assert (8 * s) as real == 100.0 * (s as real * 0.08);
    }
  }

  /** For an integer subtotal, 8s is never 50 modulo 100, so `Math.round` never
      meets a tie and any rounding of halves gives the same tax. */
  lemma TaxNeverTies(s: int)
    ensures (8 * s) % 100 != 50
  {
  }

  lemma TaxNonNegative(s: int)
    requires s >= 0
    ensures TaxFor(s) >= 0
  {
    TaxClosedForm(s);
  }

  lemma TaxMonotone(s: int, t: int)
    requires s <= t
    ensures TaxFor(s) <= TaxFor(t)
  {
    TaxClosedForm(s);
    TaxClosedForm(t);
  }

  /** `breakdown(lines)`: tax is taken on the subtotal only, never on shipping. */
  function Breakdown(lines: seq<CartLine>): (r: Totals)
    ensures r.subtotal == SubtotalFrom(lines)
    ensures r.shipping == ShippingFor(r.subtotal) && r.tax == TaxFor(r.subtotal)
    ensures r.total == r.subtotal + r.shipping + r.tax
  {
    var subtotal := SubtotalFrom(lines);
    var shipping := ShippingFor(subtotal);
    var tax := TaxFor(subtotal);
    Totals(subtotal, shipping, tax, subtotal + shipping + tax)
  }

  /** The total is at least the subtotal, and an empty cart costs nothing. */
  lemma BreakdownBounds(lines: seq<CartLine>)
    ensures Breakdown(lines).total >= Breakdown(lines).subtotal >= 0
    ensures lines == [] ==> Breakdown(lines) == Totals(0, 0, 0, 0)
  {
    TaxNonNegative(SubtotalFrom(lines));
    if lines == [] {
      TaxClosedForm(0);
    }
  }

  /** One line of 2 x $10.00 costs $20.00 + $5.99 shipping + $1.60 tax = $27.59. */
  lemma BreakdownScenario()
    ensures Breakdown([CartLine(Some(1000), Some(2))]) == Totals(2000, 599, 160, 2759)
  {
    var lines := [CartLine(Some(1000), Some(2))];
    assert lines[..0] == [];
    TaxClosedForm(2000);
  }
}
