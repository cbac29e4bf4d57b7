/**
 * The browser-local storage slot under the key 'cart' and the handlers of the
 * storefront script that read it, change the cart and write it back.
 *
 * The slot holds either nothing or a cart; the JSON text the script keeps
 * there is not modelled, the slot holds the cart value itself.
 */
module Storage {
  import opened Wrappers
  import opened CartItems
  import Badge

  class CartStore<P> {
    /** The value under the storage key, if any. */
    var stored: Option<Cart<P>>

    /** A store whose slot starts out as `initial` (what an earlier visit left there). */
    constructor (initial: Option<Cart<P>>)
      ensures stored == initial
    {
      stored := initial;
    }

    /** `getCart`: the stored cart, or the empty cart when nothing is stored. */
    function Load(): (c: Cart<P>)
      reads this
      ensures stored.None? ==> c == []
      ensures stored.Some? ==> c == stored.value
    {
      stored.GetOr([])
    }

    /** Every stored line item has its own id (what Add and Remove keep). */
    ghost predicate IdsUnique()
      reads this
    {
      UniqueIds(Load())
    }

    /** `saveCart`: replaces whatever was stored; a later load gives back `cart`. */
    method Save(cart: Cart<P>)
      modifies this
      ensures stored == Some(cart)
      ensures Load() == cart
    {
      stored := Some(cart);
    }

    /**
     * `addToCart`: load, bump the first line item with the product's id or
     * append a new one, save.
     */
    method Add(p: Product<P>)
      modifies this
      ensures stored == Some(AddItem(old(Load()), p))
      ensures old(IdsUnique()) ==> IdsUnique()
      ensures TotalQuantity(Load()) == TotalQuantity(old(Load())) + 1
    {
      var cart := Load();
      ghost var before := cart;
      var found := FindFirst(cart, p.id);
      match found {
        case Some(i) =>
          cart := cart[i := Bump(cart[i])];
        case None =>
          cart := cart + [NewLine(p)];
      }
      assert cart == AddItem(before, p);
      AddIncrementsTotal(before, p);
      if UniqueIds(before) {
        AddKeepsIdsUnique(before, p);
      }
      Save(cart);
    }

    /** `removeFromCart`: load, drop every line item with that id, save. */
    method Remove(id: string)
      modifies this
      ensures stored == Some(RemoveId(old(Load()), id))
      ensures old(IdsUnique()) ==> IdsUnique()
      ensures !HasId(old(Load()), id) ==> Load() == old(Load())
    {
      var cart := Load();
      if IdsUnique() {
        RemoveKeepsIdsUnique(cart, id);
      }
      if !HasId(cart, id) {
        RemoveIdAbsent(cart, id);
      }
      Save(RemoveId(cart, id));
    }

    /** The count of `updateCartCount`: the quantities summed from the front, starting at 0. */
    method Count() returns (total: nat)
      ensures total == TotalQuantity(Load())
      ensures total == 0 <==> Load() == []
    {
      var cart := Load();
      total := 0;
      var i := 0;
      while i < |cart|
        invariant 0 <= i <= |cart|
        invariant total == TotalQuantity(cart[..i])
      {
        TotalQuantityConcat(cart[..i], [cart[i]]);
        assert cart[..i + 1] == cart[..i] + [cart[i]];
        assert [cart[i]][1..] == [];
        total := total + cart[i].quantity;
        i := i + 1;
      }
      assert cart[..i] == cart;
    }

    /** The text `updateCartCount` writes into every badge: empty for an empty cart, else "(count)". */
    method BadgeText() returns (text: string)
      ensures text == "" <==> Load() == []
      ensures text == Badge.BadgeText(TotalQuantity(Load()))
    {
      var count := Count();
      text := Badge.BadgeText(count);
    }

    /**
     * The submit handler of the checkout form: an empty cart is refused and the
     * slot left as it was; otherwise the slot is removed.
     */
    method Checkout() returns (accepted: bool)
      modifies this
      ensures accepted <==> old(Load()) != []
      ensures !accepted ==> stored == old(stored)
      ensures accepted ==> stored == None
      ensures accepted ==> Load() == [] && TotalQuantity(Load()) == 0
    {
      var cart := Load();
      if |cart| == 0 {
        return false;
      }
      stored := None;
      return true;
    }
  }

  /**
   * The scenario of adding one product twice and removing it: the badge reads
   * "(2)" in between and "" at the end, and checkout is then refused.
   */
  method AddTwiceThenRemove<P>(p: Product<P>)
  {
    var store := new CartStore<P>(None);
    store.Add(p);
    store.Add(p);
    AddSameTwice(p);
    assert store.Load() == [Item(p.id, p.name, p.price, 2)];
    var text := store.BadgeText();
    Badge.BadgeOfTwo();
    assert text == "(2)";
    store.Remove(p.id);
    assert store.Load() == [];
    text := store.BadgeText();
    assert text == "";
    var accepted := store.Checkout();
    assert !accepted && store.stored == Some([]);
  }
}
