/** The cart purge mounted with the receipt: once per mount it removes every
    storage key and cookie whose name mentions "cart" (in any case), and empties
    the cart store, three times over. */
module Purge {
  import opened Common
  import Cart

  /** "cart", in any case, at index `p` of `name`. */
  predicate CartAtIndex(name: string, p: int) {
    0 <= p && p + 4 <= |name|
    && LowerChar(name[p]) == 'c' && LowerChar(name[p + 1]) == 'a'
    && LowerChar(name[p + 2]) == 'r' && LowerChar(name[p + 3]) == 't'
  }

  /** `/cart/i.test(name)`: "cart", in any case, somewhere in the name. */
  predicate IsCartName(name: string) {
    exists p :: 0 <= p < |name| && CartAtIndex(name, p)
  }

  /** The test is a case-insensitive substring search for "cart". */
  lemma CartNameIsSubstring(name: string)
    ensures IsCartName(name) <==> ContainsIgnoreCase(name, "cart")
  {
    var l := Lower(name);
    assert Lower("cart") == "cart";
    if IsCartName(name) {
      var p :| 0 <= p < |name| && CartAtIndex(name, p);
      assert l[p..p + 4] == [l[p], l[p + 1], l[p + 2], l[p + 3]];
      assert OccursAt(l, "cart", p);
    }
    if ContainsIgnoreCase(name, "cart") {
      var v := IndexOf(l, "cart").value;
      assert l[v..v + 4] == "cart";
      assert l[v] == "cart"[0] && l[v + 1] == "cart"[1] && l[v + 2] == "cart"[2] && l[v + 3] == "cart"[3];
      assert CartAtIndex(name, v);
    }
  }

  /** The keys the purge removes by name before it scans. */
  const LEGACY_KEYS: seq<string> :=
    ["cart", "cartItems", "ahow_cart", "ahow-cart", "ahow.cart", "order_cart", "checkout_cart"]

  predicate Distinct(ks: seq<string>) {
    forall i, j :: 0 <= i < j < |ks| ==> ks[i] != ks[j]
  }

  /** `ks` without the keys listed in `drop`, in order. */
  function Without(ks: seq<string>, drop: seq<string>): (r: seq<string>)
    ensures |r| <= |ks|
    ensures forall k :: k in r <==> k in ks && k !in drop
  {
    if ks == [] then []
    else (if ks[0] in drop then [] else [ks[0]]) + Without(ks[1..], drop)
  }

  /** The keys a full scan keeps: those whose name does not mention "cart". */
  function NonCart(ks: seq<string>): (r: seq<string>)
    ensures |r| <= |ks|
  {
    if ks == [] then []
    else NonCart(ks[..|ks| - 1]) + (if IsCartName(ks[|ks| - 1]) then [] else [ks[|ks| - 1]])
  }

  /** A key survives the scan exactly when it was there and does not mention "cart". */
  lemma {:induction false} NonCartMembers(ks: seq<string>)
    ensures forall k :: k in NonCart(ks) <==> k in ks && !IsCartName(k)
  {
    if ks != [] {
      var init := ks[..|ks| - 1];
      NonCartMembers(init);
      assert ks == init + [ks[|ks| - 1]];
    }
  }

  lemma {:induction false} WithoutNothing(ks: seq<string>)
    ensures Without(ks, []) == ks
  {
    if ks != [] {
      WithoutNothing(ks[1..]);
      assert ks == [ks[0]] + ks[1..];
    }
  }

  lemma {:induction false} WithoutAbsent(ks: seq<string>, k: string)
    requires k !in ks
    ensures Without(ks, [k]) == ks
  {
    if ks != [] {
      WithoutAbsent(ks[1..], k);
      assert ks == [ks[0]] + ks[1..];
    }
  }

  /** In a list of distinct keys, removing one key removes exactly its place. */
  lemma {:induction false} WithoutDistinctAt(ks: seq<string>, i: int)
    requires Distinct(ks) && 0 <= i < |ks|
    ensures Without(ks, [ks[i]]) == ks[..i] + ks[i + 1..]
  {
    if i == 0 {
      assert ks[0] !in ks[1..] by {
        forall j | 0 <= j < |ks[1..]| ensures ks[1..][j] != ks[0] {
          assert ks[1..][j] == ks[j + 1];
        }
      }
      WithoutAbsent(ks[1..], ks[0]);
    } else {
      var t := ks[1..];
      assert Distinct(t) by {
        forall a, b | 0 <= a < b < |t| ensures t[a] != t[b] {
          assert t[a] == ks[a + 1] && t[b] == ks[b + 1];
        }
      }
      assert t[i - 1] == ks[i];
      WithoutDistinctAt(t, i - 1);
      assert ks[0] != ks[i];
      assert ks[..i] + ks[i + 1..] == [ks[0]] + (t[..i - 1] + t[i..]);
    }
  }

  lemma {:induction false} WithoutKeepsDistinct(ks: seq<string>, drop: seq<string>)
    requires Distinct(ks)
    ensures Distinct(Without(ks, drop))
  {
    if ks != [] {
      var t := ks[1..];
      assert Distinct(t) by {
        forall a, b | 0 <= a < b < |t| ensures t[a] != t[b] {
          assert t[a] == ks[a + 1] && t[b] == ks[b + 1];
        }
      }
      WithoutKeepsDistinct(t, drop);
      assert ks[0] !in t by {
        forall j | 0 <= j < |t| ensures t[j] != ks[0] {
          assert t[j] == ks[j + 1];
        }
      }
    }
  }

  lemma {:induction false} WithoutThenOne(ks: seq<string>, drop: seq<string>, k: string)
    ensures Without(Without(ks, drop), [k]) == Without(ks, drop + [k])
  {
    if ks != [] {
      WithoutThenOne(ks[1..], drop, k);
      var head := if ks[0] in drop then [] else [ks[0]];
      assert Without(ks, drop) == head + Without(ks[1..], drop);
      WithoutAppend(head, Without(ks[1..], drop), [k]);
    }
  }

  lemma {:induction false} WithoutAppend(a: seq<string>, b: seq<string>, drop: seq<string>)
    ensures Without(a + b, drop) == Without(a, drop) + Without(b, drop)
  {
    if a != [] {
      assert (a + b)[1..] == a[1..] + b;
      WithoutAppend(a[1..], b, drop);
    } else {
      assert a + b == b;
    }
  }

  /** A storage area (`localStorage` or `sessionStorage`): its keys, in the order
      `key(i)` returns them. */
  class Storage {
    var keys: seq<string>

    ghost predicate Valid()
      reads this
    {
      Distinct(keys)
    }

    constructor(keys: seq<string>)
      requires Distinct(keys)
      ensures this.keys == keys && Valid()
    {
      this.keys := keys;
    }

    /** `removeItem(k)`: the other keys stay, in order. */
    method RemoveItem(k: string)
      modifies this
      ensures keys == Without(old(keys), [k])
      ensures old(Valid()) ==> Valid()
    {
      if Valid() {
        WithoutKeepsDistinct(keys, [k]);
      }
      keys := Without(keys, [k]);
    }
  }

  /** The legacy keys, removed one by one. */
  method RemoveLegacy(st: Storage)
    requires st.Valid()
    modifies st
    ensures st.keys == Without(old(st.keys), LEGACY_KEYS) && st.Valid()
  {
    WithoutNothing(st.keys);
    var j := 0;
    while j < |LEGACY_KEYS|
      invariant 0 <= j <= |LEGACY_KEYS|
      invariant st.keys == Without(old(st.keys), LEGACY_KEYS[..j]) && st.Valid()
    {
      WithoutThenOne(old(st.keys), LEGACY_KEYS[..j], LEGACY_KEYS[j]);
      assert LEGACY_KEYS[..j] + [LEGACY_KEYS[j]] == LEGACY_KEYS[..j + 1];
      st.RemoveItem(LEGACY_KEYS[j]);
      j := j + 1;
    }
    assert LEGACY_KEYS[..j] == LEGACY_KEYS;
  }

  /** The scan: walk the keys by index; on a cart key remove it and step back, so
      that the key that moved into its place is looked at next. */
  method RemoveCartKeys(st: Storage)
    requires st.Valid()
    modifies st
    ensures st.keys == NonCart(old(st.keys)) && st.Valid()
  {
    ghost var orig := st.keys;
    ghost var done := 0;
    var i := 0;
    while i < |st.keys|
      invariant 0 <= done <= |orig|
      invariant i == |NonCart(orig[..done])|
      invariant st.keys == NonCart(orig[..done]) + orig[done..] && st.Valid()
      decreases |st.keys| - i
    {
      ScanStep(orig, done, st.keys);
      var k := st.keys[i];
      if IsCartName(k) {
        WithoutDistinctAt(st.keys, i);
        st.RemoveItem(k);
        i := i - 1;
      }
      done := done + 1;
      i := i + 1;
    }
    assert orig[..done] == orig;
  }

  /** One step of the scan, on the original keys: the key at the scan index is
      the next original key, and dropping or keeping it extends the prefix. */
  lemma ScanStep(orig: seq<string>, done: int, keys: seq<string>)
    requires 0 <= done < |orig| && keys == NonCart(orig[..done]) + orig[done..]
    ensures var i := |NonCart(orig[..done])|;
            && i < |keys| && keys[i] == orig[done]
            && (IsCartName(orig[done]) ==>
                  keys[..i] + keys[i + 1..] == NonCart(orig[..done + 1]) + orig[done + 1..]
                  && |NonCart(orig[..done + 1])| == i)
            && (!IsCartName(orig[done]) ==>
                  keys == NonCart(orig[..done + 1]) + orig[done + 1..]
                  && |NonCart(orig[..done + 1])| == i + 1)
  {
    var x := orig[done];
    assert orig[..done + 1] == orig[..done] + [x];
    NonCartSnoc(orig[..done], x);
    assert orig[done..] == [x] + orig[done + 1..];
    Around(NonCart(orig[..done]), x, orig[done + 1..]);
  }

  /** The scan's result on one more key. */
  lemma NonCartSnoc(a: seq<string>, x: string)
    ensures NonCart(a + [x]) == NonCart(a) + (if IsCartName(x) then [] else [x])
  {
    assert (a + [x])[..|a + [x]| - 1] == a;
  }

  /** Removing the element between two parts leaves the two parts. */
  lemma Around(pre: seq<string>, x: string, post: seq<string>)
    ensures var s := pre + ([x] + post);
            s[|pre|] == x && s[..|pre|] + s[|pre| + 1..] == pre + post && s == (pre + [x]) + post
  {
    var s := pre + ([x] + post);
    assert s[..|pre|] == pre;
    assert s[|pre| + 1..] == post;
  }

  /** What the scan keeps, it keeps for good: a second scan removes nothing. */
  lemma {:induction false} NonCartIdempotent(ks: seq<string>)
    ensures NonCart(NonCart(ks)) == NonCart(ks)
  {
    if ks != [] {
      var init := ks[..|ks| - 1];
      var last := ks[|ks| - 1];
      NonCartIdempotent(init);
      var tail := if IsCartName(last) then [] else [last];
      NonCartAppend(NonCart(init), tail);
    }
  }

  lemma {:induction false} NonCartAppend(a: seq<string>, b: seq<string>)
    ensures NonCart(a + b) == NonCart(a) + NonCart(b)
    decreases |b|
  {
    if b == [] {
      assert a + b == a;
    } else {
      assert (a + b)[..|a + b| - 1] == a + b[..|b| - 1];
      NonCartAppend(a, b[..|b| - 1]);
    }
  }

  /** Every legacy key mentions "cart", so removing them first changes nothing
      about what the scan leaves. */
  lemma {:induction false} LegacyPassRedundant(ks: seq<string>)
    ensures NonCart(Without(ks, LEGACY_KEYS)) == NonCart(ks)
  {
    if ks != [] {
      var h := ks[0];
      LegacyPassRedundant(ks[1..]);
      var head := if h in LEGACY_KEYS then [] else [h];
      NonCartAppend(head, Without(ks[1..], LEGACY_KEYS));
      assert ks == [h] + ks[1..];
      NonCartAppend([h], ks[1..]);
      if h in LEGACY_KEYS {
        assert IsCartName(h) by { LegacyKeysMentionCart(); }
        assert NonCart([h]) == NonCart([]) + [];
      }
    }
  }

  lemma LegacyKeysMentionCart()
    ensures forall k :: k in LEGACY_KEYS ==> IsCartName(k)
  {
    assert CartAtIndex(LEGACY_KEYS[0], 0) && CartAtIndex(LEGACY_KEYS[1], 0);
    assert CartAtIndex(LEGACY_KEYS[2], 5) && CartAtIndex(LEGACY_KEYS[3], 5) && CartAtIndex(LEGACY_KEYS[4], 5);
    assert CartAtIndex(LEGACY_KEYS[5], 6) && CartAtIndex(LEGACY_KEYS[6], 9);
  }

  /** The key the cart persists under is one the scan removes. */
  lemma StoredCartIsPurged(ks: seq<string>)
    ensures Cart.LS_KEY !in NonCart(ks)
  {
    NonCartMembers(ks);
    assert CartAtIndex(Cart.LS_KEY, 4);
  }

  // ---- cookies ------------------------------------------------------------------------

  /** `s.split(c)` for a one-character separator. */
  function Split(s: string, c: char): (r: seq<string>)
    ensures |r| >= 1
    ensures forall i :: 0 <= i < |r| ==> c !in r[i]
  {
    if s == [] then [""]
    else
      var rest := Split(s[1..], c);
      if s[0] == c then [""] + rest else [[s[0]] + rest[0]] + rest[1..]
  }

  /** Splitting loses nothing: joining the pieces with the separator gives the
      string back. */
  lemma {:induction false} SplitJoin(s: string, c: char)
    ensures Join(Split(s, c), [c]) == s
  {
    if s != [] {
      var rest := Split(s[1..], c);
      SplitJoin(s[1..], c);
      if s[0] == c {
        assert Split(s, c) == [""] + rest;
        assert Join([""] + rest, [c]) == "" + [c] + Join(rest, [c]);
      } else {
        var r := [[s[0]] + rest[0]] + rest[1..];
        if |rest| == 1 {
          assert Join(r, [c]) == [s[0]] + rest[0];
        } else {
          assert r[1..] == rest[1..];
          assert Join(r, [c]) == [s[0]] + rest[0] + [c] + Join(rest[1..], [c]);
        }
      }
    }
  }

  /** The non-empty trimmed pieces of the cookie header, and their names (the
      part before the first `=`). */
  function CookieNames(header: string): seq<string> {
    NamesOf(Split(header, ';'))
  }

  function NamesOf(pieces: seq<string>): seq<string> {
    if pieces == [] then []
    else (if Trim(pieces[0]) != "" then [PrefixBefore(Trim(pieces[0]), "=")] else []) + NamesOf(pieces[1..])
  }

  /** A name is read from the header exactly when some non-empty trimmed piece
      starts with it, up to the first `=`. */
  lemma CookieNamesMembers(header: string)
    ensures forall n :: n in CookieNames(header) <==>
              exists p :: p in Split(header, ';') && Trim(p) != "" && n == PrefixBefore(Trim(p), "=")
  {
    NamesOfMembers(Split(header, ';'));
  }

  lemma {:induction false} NamesOfMembers(pieces: seq<string>)
    ensures forall n :: n in NamesOf(pieces) <==>
              exists p :: p in pieces && Trim(p) != "" && n == PrefixBefore(Trim(p), "=")
  {
    if pieces != [] {
      NamesOfMembers(pieces[1..]);
      assert pieces == [pieces[0]] + pieces[1..];
      forall n | exists p :: p in pieces && Trim(p) != "" && n == PrefixBefore(Trim(p), "=")
        ensures n in NamesOf(pieces)
      {
        var p :| p in pieces && Trim(p) != "" && n == PrefixBefore(Trim(p), "=");
        if p != pieces[0] {
          assert p in pieces[1..];
        }
      }
    }
  }

  /** The cookie written to expire `name`. */
  function Expiry(name: string): string {
    name + "=; Max-Age=0; path=/"
  }

  /** The cookie writes of one pass, in order. */
  function CookieWrites(header: string): seq<string> {
    ExpiriesOf(CookieNames(header))
  }

  function ExpiriesOf(names: seq<string>): seq<string> {
    if names == [] then []
    else (if IsCartName(names[0]) then [Expiry(names[0])] else []) + ExpiriesOf(names[1..])
  }

  /** A pass writes an expiry for each cookie whose name mentions "cart", and
      nothing else. */
  lemma CookieWritesMembers(header: string)
    ensures forall w :: w in CookieWrites(header) <==>
              exists n :: n in CookieNames(header) && IsCartName(n) && w == Expiry(n)
  {
    ExpiriesOfMembers(CookieNames(header));
  }

  lemma {:induction false} ExpiriesOfMembers(names: seq<string>)
    ensures forall w :: w in ExpiriesOf(names) <==> exists n :: n in names && IsCartName(n) && w == Expiry(n)
  {
    if names != [] {
      ExpiriesOfMembers(names[1..]);
      assert names == [names[0]] + names[1..];
      forall w | exists n :: n in names && IsCartName(n) && w == Expiry(n)
        ensures w in ExpiriesOf(names)
      {
        var n :| n in names && IsCartName(n) && w == Expiry(n);
        if n != names[0] {
          assert n in names[1..];
        }
      }
    }
  }

  // ---- the cart store -----------------------------------------------------------------

  /** `it.id ?? it.productId ?? ...` for a cart line (it has no `id`), and only the
      truthy ones. */
  function LineIds(items: seq<Cart.CartItem>): (r: seq<string>)
    ensures forall id :: id in r <==> id != "" && exists x :: x in items && x.product.productId == id
  {
    if items == [] then []
    else
      (if items[0].product.productId != "" then [items[0].product.productId] else [])
      + LineIds(items[1..])
  }

  /** One removal by product id, on the lines left so far. */
  lemma DropOne(before: seq<Cart.CartItem>, items: seq<Cart.CartItem>, done: seq<string>, id: string)
    requires forall x :: x in items <==> x in before && x.product.productId !in done
    ensures forall x :: x in Cart.RemoveFrom(items, id, Cart.AllVariants) <==>
              x in before && x.product.productId !in done + [id]
  {
  }

  /** `clearReactState`: `clear()` when the store offers it; otherwise remove each
      line's product id, which leaves only lines whose product id is empty. */
  method ClearStore(store: Cart.CartStore, hasClear: bool)
    modifies store
    ensures hasClear ==> store.items == []
    ensures forall x :: x in store.items <==> x in old(store.items) && !hasClear && x.product.productId == ""
    ensures old(store.Valid()) ==> store.Valid()
  {
    if hasClear {
      store.Clear();
      return;
    }
    if |store.items| == 0 {
      return;
    }
    var ids := LineIds(store.items);
    ghost var before := store.items;
    var j := 0;
    while j < |ids|
      invariant 0 <= j <= |ids|
      invariant forall x :: x in store.items <==> x in before && x.product.productId !in ids[..j]
      invariant old(store.Valid()) ==> store.Valid()
    {
      DropOne(before, store.items, ids[..j], ids[j]);
      store.Remove(ids[j], Cart.AllVariants);
      assert ids[..j + 1] == ids[..j] + [ids[j]];
      j := j + 1;
    }
    assert ids[..j] == ids;
  }

  /** Local storage: the legacy keys by name, then the scan; the legacy pass
      changes nothing about what the scan leaves. */
  method PurgeLocal(st: Storage)
    requires st.Valid()
    modifies st
    ensures st.keys == NonCart(old(st.keys)) && st.Valid()
  {
    LegacyPassRedundant(st.keys);
    RemoveLegacy(st);
    RemoveCartKeys(st);
  }

  /** Both storage areas (local storage with its legacy pass, then session
      storage) and the cart store. */
  method PurgeAll(local: Storage, session: Storage, store: Cart.CartStore, hasClear: bool)
    requires local != session && local.Valid() && session.Valid()
    modifies local, session, store
    ensures local.keys == NonCart(old(local.keys)) && local.Valid()
    ensures session.keys == NonCart(old(session.keys)) && session.Valid()
    ensures forall x :: x in store.items <==> x in old(store.items) && !hasClear && x.product.productId == ""
    ensures old(store.Valid()) ==> store.Valid()
  {
    PurgeLocal(local);
    RemoveCartKeys(session);
    ClearStore(store, hasClear);
  }

  /** The purge of one mount. */
  class ArrivalPurge {
    var didRun: bool

    constructor()
      ensures !didRun
    {
      didRun := false;
    }

    /** One pass: the legacy keys and the scan on local storage, the scan on
        session storage, the cookie expiries, and the store. */
    method Pass(local: Storage, session: Storage, cookieHeader: string, store: Cart.CartStore, hasClear: bool)
      returns (writes: seq<string>)
      requires local != session && local.Valid() && session.Valid()
      modifies local, session, store
      ensures local.keys == NonCart(old(local.keys)) && local.Valid()
      ensures session.keys == NonCart(old(session.keys)) && session.Valid()
      ensures writes == CookieWrites(cookieHeader)
      ensures forall x :: x in store.items <==> x in old(store.items) && !hasClear && x.product.productId == ""
      ensures old(store.Valid()) ==> store.Valid()
    {
      PurgeAll(local, session, store, hasClear);
      writes := CookieWrites(cookieHeader);
    }

    /** The effect: on the first mount, three passes (now, and after two timers);
        on any later run, nothing. The timers are taken to fire in order with no
        other change to the storage in between. */
    method OnMount(local: Storage, session: Storage, headers: (string, string, string), store: Cart.CartStore, hasClear: bool)
      returns (writes: seq<seq<string>>)
      requires local != session && local.Valid() && session.Valid()
      modifies this, local, session, store
      ensures didRun
      ensures old(didRun) ==> writes == [] && local.keys == old(local.keys) && session.keys == old(session.keys)
                              && store.items == old(store.items)
      ensures !old(didRun) ==> local.keys == NonCart(old(local.keys)) && session.keys == NonCart(old(session.keys))
      ensures !old(didRun) ==> writes == [CookieWrites(headers.0), CookieWrites(headers.1), CookieWrites(headers.2)]
      ensures !old(didRun) ==> forall x :: x in store.items <==> x in old(store.items) && !hasClear && x.product.productId == ""
    {
      if didRun {
        return [];
      }
      didRun := true;
      ghost var l0, s0 := local.keys, session.keys;
      var w0 := Pass(local, session, headers.0, store, hasClear);
      var w1 := Pass(local, session, headers.1, store, hasClear);
      var w2 := Pass(local, session, headers.2, store, hasClear);
      NonCartIdempotent(l0);
      NonCartIdempotent(s0);
      writes := [w0, w1, w2];
    }
  }
}
