/**
 * The cart as a value: an ordered sequence of line items, and the pure
 * operations of the storefront script on it (find by id, add a product,
 * remove by id, total item count).
 *
 * The unit price is only ever copied from a product into a line item, so it
 * is a type parameter `P`; the floating-point totals are not modelled.
 */
module CartItems {
  import opened Wrappers

  /** A line item's quantity: starts at 1 and only ever grows. */
  type Quantity = q: nat | q >= 1 witness 1

  /** What an add-to-cart button hands over: id, name and parsed price. */
  datatype Product<P> = Product(id: string, name: string, price: P)

  /** One entry of the stored cart. */
  datatype Item<P> = Item(id: string, name: string, price: P, quantity: Quantity)

  type Cart<P> = seq<Item<P>>

  /** Some line item of `c` carries identifier `id`. */
  predicate HasId<P>(c: Cart<P>, id: string) {
    exists i :: 0 <= i < |c| && c[i].id == id
  }

  /** No two line items share an identifier. */
  predicate UniqueIds<P>(c: Cart<P>) {
    forall i, j :: 0 <= i < j < |c| ==> c[i].id != c[j].id
  }

  /** `i` is the first position of `c` whose line item carries `id`. */
  predicate FirstWithId<P>(c: Cart<P>, id: string, i: int) {
    0 <= i < |c| && c[i].id == id && forall j :: 0 <= j < i ==> c[j].id != id
  }

  // ---------------------------------------------------------------------------
  // Find (`cart.find(item => item.id === product.id)`)

  /** The position of the first line item with identifier `id`, if any. */
  function FindIndex<P>(c: Cart<P>, id: string): (r: Option<nat>)
    ensures r.Some? ==> FirstWithId(c, id, r.value)
    ensures r.None? <==> !HasId(c, id)
  {
    if c == [] then None
    else if c[0].id == id then Some(0)
    else match FindIndex(c[1..], id)
      case None =>
        assert forall i :: 1 <= i < |c| ==> c[i] == c[1..][i - 1];
        None
      case Some(k) =>
        assert forall j :: 1 <= j <= k ==> c[j] == c[1..][j - 1];
        Some(k + 1)
  }

  /** The linear search behind `cart.find`, scanning from the front. */
  method FindFirst<P>(c: Cart<P>, id: string) returns (r: Option<nat>)
    ensures r == FindIndex(c, id)
  {
    var i := 0;
    while i < |c|
      invariant 0 <= i <= |c|
      invariant forall j :: 0 <= j < i ==> c[j].id != id
    {
      if c[i].id == id {
        FindIndexUnique(c, id, i);
        return Some(i);
      }
      i := i + 1;
    }
    return None;
  }

  /** Only one position can be the first with a given id. */
  lemma FindIndexUnique<P>(c: Cart<P>, id: string, i: int)
    requires FirstWithId(c, id, i)
    ensures FindIndex(c, id) == Some(i)
  {
  }

  // ---------------------------------------------------------------------------
  // Add (`addToCart`)

  /** The line item a first add creates: the product's fields and quantity 1. */
  function NewLine<P>(p: Product<P>): (it: Item<P>)
    ensures it.id == p.id && it.name == p.name && it.price == p.price && it.quantity == 1
  {
    Item(p.id, p.name, p.price, 1)
  }

  /** The same line item with one more unit. */
  function Bump<P>(it: Item<P>): (r: Item<P>) {
    it.(quantity := it.quantity + 1)
  }

  /**
   * Adding a product: the first line item with the product's id gets one more
   * unit, and keeps its own name and price; when no line item has that id, a
   * new one with quantity 1 goes at the end.
   */
  function AddItem<P>(c: Cart<P>, p: Product<P>): (r: Cart<P>)
    ensures HasId(r, p.id)
    ensures !HasId(c, p.id) ==> |r| == |c| + 1 && r[..|c|] == c && r[|c|] == NewLine(p)
    ensures HasId(c, p.id) ==> |r| == |c|
    ensures forall i :: FirstWithId(c, p.id, i) ==>
      && r[i].id == c[i].id && r[i].name == c[i].name && r[i].price == c[i].price
      && r[i].quantity == c[i].quantity + 1
      && forall j :: 0 <= j < |c| && j != i ==> r[j] == c[j]
  {
    match FindIndex(c, p.id)
    case Some(i) =>
      assert forall k :: FirstWithId(c, p.id, k) ==> k == i by {
        forall k | FirstWithId(c, p.id, k) ensures k == i {
          FindIndexUnique(c, p.id, k);
        }
      }
      var r := c[i := Bump(c[i])];
      assert r[i].id == p.id;
      r
    case None =>
      var r := c + [NewLine(p)];
      assert r[|c|].id == p.id && r[..|c|] == c;
      assert forall i :: FirstWithId(c, p.id, i) ==> HasId(c, p.id);
      r
  }

  /** Add keeps the identifiers unique. */
  lemma AddKeepsIdsUnique<P>(c: Cart<P>, p: Product<P>)
    requires UniqueIds(c)
    ensures UniqueIds(AddItem(c, p))
  {
  }

  /** Add raises the total item count by exactly one. */
  lemma AddIncrementsTotal<P>(c: Cart<P>, p: Product<P>)
    ensures TotalQuantity(AddItem(c, p)) == TotalQuantity(c) + 1
  {
    var r := AddItem(c, p);
    match FindIndex(c, p.id)
    case Some(i) =>
      TotalQuantityUpdate(c, i, Bump(c[i]));
    case None =>
      TotalQuantityConcat(c, [NewLine(p)]);
      assert [NewLine(p)][1..] == [];
  }

  // ---------------------------------------------------------------------------
  // Remove (`removeFromCart`: `cart.filter(item => item.id !== id)`)

  /** Keeps the line items whose id differs from `id`, in their order. */
  function RemoveId<P>(c: Cart<P>, id: string): (r: Cart<P>)
    ensures |r| <= |c|
    ensures !HasId(r, id)
  {
    if c == [] then []
    else if c[0].id == id then RemoveId(c[1..], id)
    else
      var rest := RemoveId(c[1..], id);
      assert forall i :: 1 <= i < |rest| + 1 ==> ([c[0]] + rest)[i] == rest[i - 1];
      [c[0]] + rest
  }

  /** Remove distributes over concatenation: it acts item by item, in order. */
  lemma {:induction false} RemoveIdConcat<P>(a: Cart<P>, b: Cart<P>, id: string)
    ensures RemoveId(a + b, id) == RemoveId(a, id) + RemoveId(b, id)
  {
    if a == [] {
      assert a + b == b;
    } else {
      assert (a + b)[0] == a[0];
      assert (a + b)[1..] == a[1..] + b;
      RemoveIdConcat(a[1..], b, id);
    }
  }

  /** On a single line item Remove keeps it exactly when its id differs. */
  lemma RemoveIdSingle<P>(it: Item<P>, id: string)
    ensures RemoveId([it], id) == if it.id == id then [] else [it]
  {
  }

  /** An item is in the result exactly when it is in the cart and its id differs. */
  lemma {:induction false} RemoveIdMembers<P>(c: Cart<P>, id: string)
    ensures forall x :: x in RemoveId(c, id) <==> x in c && x.id != id
  {
    if c != [] {
      RemoveIdMembers(c[1..], id);
      assert c == [c[0]] + c[1..];
      assert forall x :: x in c <==> x == c[0] || x in c[1..];
    }
  }

  /** Removing an id no line item carries leaves the cart as it is. */
  lemma {:induction false} RemoveIdAbsent<P>(c: Cart<P>, id: string)
    requires !HasId(c, id)
    ensures RemoveId(c, id) == c
  {
    if c != [] {
      assert c[0].id != id;
      forall k | 0 <= k < |c[1..]| ensures c[1..][k].id != id {
        assert c[1..][k] == c[k + 1];
      }
      RemoveIdAbsent(c[1..], id);
      assert c == [c[0]] + c[1..];
    }
  }

  /** Removing twice is the same as removing once. */
  lemma RemoveIdIdempotent<P>(c: Cart<P>, id: string)
    ensures RemoveId(RemoveId(c, id), id) == RemoveId(c, id)
  {
  }

  /** Remove keeps the identifiers unique. */
  lemma {:induction false} RemoveKeepsIdsUnique<P>(c: Cart<P>, id: string)
    requires UniqueIds(c)
    ensures UniqueIds(RemoveId(c, id))
  {
    if c != [] {
      var rest := c[1..];
      assert UniqueIds(rest) by {
        forall i, j | 0 <= i < j < |rest| ensures rest[i].id != rest[j].id {
          assert rest[i] == c[i + 1] && rest[j] == c[j + 1];
        }
      }
      RemoveKeepsIdsUnique(rest, id);
      if c[0].id != id {
        var r := RemoveId(rest, id);
        forall m | 0 <= m < |rest| ensures rest[m].id != c[0].id {
          assert rest[m] == c[m + 1];
        }
        RemoveIdAvoids(rest, id, c[0].id);
        var full := [c[0]] + r;
        forall i, j | 0 <= i < j < |full| ensures full[i].id != full[j].id {
          if i == 0 {
            assert full[j] == r[j - 1];
          } else {
            assert full[i] == r[i - 1] && full[j] == r[j - 1];
          }
        }
      }
    }
  }

  /** An id that no line item of the cart carries is not carried after Remove either. */
  lemma {:induction false} RemoveIdAvoids<P>(c: Cart<P>, id: string, other: string)
    requires forall m :: 0 <= m < |c| ==> c[m].id != other
    ensures forall k :: 0 <= k < |RemoveId(c, id)| ==> RemoveId(c, id)[k].id != other
  {
    if c != [] {
      assert forall m :: 0 <= m < |c[1..]| ==> c[1..][m] == c[m + 1];
      RemoveIdAvoids(c[1..], id, other);
    }
  }

  /**
   * With unique ids, removing the id of the line item at `i` drops exactly that
   * line item: one fewer entry and that item's quantity fewer in the count.
   */
  lemma RemovePresentId<P>(c: Cart<P>, i: int)
    requires UniqueIds(c) && 0 <= i < |c|
    ensures |RemoveId(c, c[i].id)| == |c| - 1
    ensures TotalQuantity(RemoveId(c, c[i].id)) == TotalQuantity(c) - c[i].quantity
  {
    var id := c[i].id;
    var before, after := c[..i], c[i + 1..];
    assert c == before + [c[i]] + after;
    forall k | 0 <= k < |before| ensures before[k].id != id {
      assert before[k] == c[k];
    }
    forall k | 0 <= k < |after| ensures after[k].id != id {
      assert after[k] == c[i + 1 + k];
    }
    RemoveIdConcat(before + [c[i]], after, id);
    RemoveIdConcat(before, [c[i]], id);
    RemoveIdSingle(c[i], id);
    RemoveIdAbsent(before, id);
    RemoveIdAbsent(after, id);
    assert RemoveId(c, id) == before + after;
    TotalQuantityConcat(before + [c[i]], after);
    TotalQuantityConcat(before, [c[i]]);
    TotalQuantityConcat(before, after);
    assert [c[i]][1..] == [];
  }

  // ---------------------------------------------------------------------------
  // Count (`cart.reduce((total, item) => total + item.quantity, 0)`)

  /** The number of units in the cart; each line item holds at least one. */
  function TotalQuantity<P>(c: Cart<P>): (n: nat)
    ensures n >= |c|
  {
    if c == [] then 0 else c[0].quantity + TotalQuantity(c[1..])
  }

  /** The count of a concatenation is the sum of the counts. */
  lemma {:induction false} TotalQuantityConcat<P>(a: Cart<P>, b: Cart<P>)
    ensures TotalQuantity(a + b) == TotalQuantity(a) + TotalQuantity(b)
  {
    if a == [] {
      assert a + b == b;
    } else {
      assert (a + b)[1..] == a[1..] + b;
      TotalQuantityConcat(a[1..], b);
    }
  }

  /** Replacing one line item changes the count by the difference of their quantities. */
  lemma {:induction false} TotalQuantityUpdate<P>(c: Cart<P>, i: int, it: Item<P>)
    requires 0 <= i < |c|
    ensures TotalQuantity(c[i := it]) == TotalQuantity(c) - c[i].quantity + it.quantity
  {
    if i > 0 {
      assert c[i := it][1..] == c[1..][i - 1 := it];
      TotalQuantityUpdate(c[1..], i - 1, it);
    }
  }

  /** The count is zero exactly when the cart has no line items. */
  lemma TotalQuantityZero<P>(c: Cart<P>)
    ensures TotalQuantity(c) == 0 <==> c == []
  {
  }

  // ---------------------------------------------------------------------------
  // Scenarios the storefront is expected to show

  /** The same product added twice gives one line item with quantity 2. */
  lemma AddSameTwice<P>(p: Product<P>)
    ensures AddItem(AddItem([], p), p) == [Item(p.id, p.name, p.price, 2)]
    ensures TotalQuantity(AddItem(AddItem([], p), p)) == 2
    ensures RemoveId(AddItem(AddItem([], p), p), p.id) == []
  {
  }

  /** Two products with different ids give two line items of quantity 1. */
  lemma AddTwoDistinct<P>(p: Product<P>, q: Product<P>)
    requires p.id != q.id
    ensures AddItem(AddItem([], p), q) == [NewLine(p), NewLine(q)]
  {
  }
}
