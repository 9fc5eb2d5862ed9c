/** The shopping cart (CartProvider, App.tsx:192-214). The cart is a sequence of lines keyed by
    product id; each operation replaces it with a new sequence computed by one of the pure
    functions below, and the totals are folds over it. */
module ShoppingCart {
  import opened Options
  import opened Lists
  import opened Entities

  /** `prev.find(item => item.id === id)` finds a line. */
  predicate HasLine(cart: seq<CartItem>, id: string): (b: bool)
    ensures b <==> exists i :: 0 <= i < |cart| && cart[i].product.id == id
  {
    Find(cart, (l: CartItem) => l.product.id == id).Some?
  }

  /** No two lines are for the same product. */
  predicate UniqueIds(cart: seq<CartItem>)
  {
    forall i, j :: 0 <= i < j < |cart| ==> cart[i].product.id != cart[j].product.id
  }

  /** The cart invariant: every line holds at least one item, and there is one line per product. */
  predicate WellFormed(cart: seq<CartItem>)
  {
    (forall i :: 0 <= i < |cart| ==> cart[i].quantity >= 1) && UniqueIds(cart)
  }

  /** `addToCart`: out of stock changes nothing; a product already in the cart gets one more
      item on its existing line (whose snapshot is kept); a new product gets a line of one at
      the end. */
  function AddLine(cart: seq<CartItem>, p: Product): (r: seq<CartItem>)
    ensures p.stock <= 0 ==> r == cart
    ensures p.stock > 0 ==> HasLine(r, p.id)
    ensures |r| == if p.stock > 0 && !HasLine(cart, p.id) then |cart| + 1 else |cart|
    ensures forall i :: 0 <= i < |cart| ==> r[i].product == cart[i].product
    ensures p.stock > 0 && !HasLine(cart, p.id) ==> r == cart + [CartItem(p, 1)]
  {
    if p.stock <= 0 then cart
    else if HasLine(cart, p.id) then
      var r := seq(|cart|, i requires 0 <= i < |cart| =>
        if cart[i].product.id == p.id then cart[i].(quantity := cart[i].quantity + 1) else cart[i]);
      assert HasLine(r, p.id) by {
        var k :| 0 <= k < |cart| && cart[k].product.id == p.id;
        assert r[k].product.id == p.id;
      }
      r
    else
      var r := cart + [CartItem(p, 1)];
      assert r[|cart|].product.id == p.id;
      r
  }

  /** `Math.max`. */
  function Max(a: int, b: int): (m: int)
    ensures m >= a && m >= b && (m == a || m == b)
  {
    if a < b then b else a
  }

  /** `updateQuantity`: every line for `id` gets `max(1, quantity + delta)`; every other line,
      the length and the order stay as they were. */
  function UpdateLines(cart: seq<CartItem>, id: string, delta: int): (r: seq<CartItem>)
    ensures |r| == |cart|
    ensures forall i :: 0 <= i < |r| ==> r[i].product == cart[i].product
    ensures forall i :: 0 <= i < |r| && cart[i].product.id != id ==> r[i] == cart[i]
    ensures forall i :: 0 <= i < |r| && cart[i].product.id == id ==>
      r[i].quantity >= 1 && r[i].quantity >= cart[i].quantity + delta &&
      (r[i].quantity == 1 || r[i].quantity == cart[i].quantity + delta)
    ensures !HasLine(cart, id) ==> r == cart
  {
    seq(|cart|, i requires 0 <= i < |cart| =>
      if cart[i].product.id == id then cart[i].(quantity := Max(1, cart[i].quantity + delta)) else cart[i])
  }

  /** `removeFromCart`: drops every line for `id` and keeps the other lines, in order. */
  function RemoveLines(cart: seq<CartItem>, id: string): (r: seq<CartItem>)
    ensures !HasLine(r, id)
    ensures forall l :: l in r <==> l in cart && l.product.id != id
    ensures forall l :: l in cart && l.product.id != id ==> multiset(r)[l] == multiset(cart)[l]
    ensures IsSubseq(r, cart)
    ensures !HasLine(cart, id) ==> r == cart
  {
    var keep := (l: CartItem) => l.product.id != id;
    FilterCounts(cart, keep);
    FilterIsSubseq(cart, keep);
    if !HasLine(cart, id) then FilterKeepsAll(cart, keep); Filter(cart, keep)
    else Filter(cart, keep)
  }

  /** `totalItems`: the quantities added up from the first line to the last. */
  function SumQuantities(cart: seq<CartItem>): (r: int)
    ensures (forall i :: 0 <= i < |cart| ==> cart[i].quantity >= 0) ==> r >= 0
    ensures (forall i :: 0 <= i < |cart| ==> cart[i].quantity >= 1) ==> r >= |cart|
  {
    if cart == [] then 0 else SumQuantities(cart[..|cart| - 1]) + cart[|cart| - 1].quantity
  }

  /** `item.discountPrice || item.price`: the discount price unless it is missing or zero. */
  function UnitPrice(p: Product): (r: int)
    ensures r == p.price || p.discountPrice == Some(r)
    ensures p.discountPrice.None? ==> r == p.price
    ensures p.discountPrice.Some? && p.discountPrice.value != 0 ==> r == p.discountPrice.value
    ensures r == 0 ==> p.price == 0
  {
    match p.discountPrice
    case Some(d) => if d != 0 then d else p.price
    case None => p.price
  }

  /** Prices, discount and quantity of a line are not negative. */
  predicate NonNegative(l: CartItem)
  {
    l.product.price >= 0 && l.product.discountPrice.GetOr(0) >= 0 && l.quantity >= 0
  }

  /** What one line adds to `totalPrice`: nothing for no items, at least one unit price for
      one item or more. */
  function LineTotal(l: CartItem): (r: int)
    ensures l.quantity == 0 ==> r == 0
    ensures NonNegative(l) ==> r >= 0
    ensures NonNegative(l) && l.quantity >= 1 ==> r >= UnitPrice(l.product)
  {
    UnitPrice(l.product) * l.quantity
  }

  /** `totalPrice`: unit price times quantity, added up from the first line to the last. */
  function SumPrices(cart: seq<CartItem>): (r: int)
    ensures (forall i :: 0 <= i < |cart| ==> NonNegative(cart[i])) ==> r >= 0
  {
    if cart == [] then 0
    else
      SumPrices(cart[..|cart| - 1]) + LineTotal(cart[|cart| - 1])
  }

  /** The item total of two carts laid end to end is the sum of their item totals. */
  lemma {:induction false} SumQuantitiesAppend(a: seq<CartItem>, b: seq<CartItem>)
    ensures SumQuantities(a + b) == SumQuantities(a) + SumQuantities(b)
    decreases |b|
  {
    if b == [] {
      assert a + b == a;
    } else {
      assert (a + b)[..|a + b| - 1] == a + b[..|b| - 1];
      SumQuantitiesAppend(a, b[..|b| - 1]);
    }
  }

  /** The price total of two carts laid end to end is the sum of their price totals. */
  lemma {:induction false} SumPricesAppend(a: seq<CartItem>, b: seq<CartItem>)
    ensures SumPrices(a + b) == SumPrices(a) + SumPrices(b)
    decreases |b|
  {
    if b == [] {
      assert a + b == a;
    } else {
      assert (a + b)[..|a + b| - 1] == a + b[..|b| - 1];
      SumPricesAppend(a, b[..|b| - 1]);
    }
  }

  /** The totals of a cart of one line. */
  lemma SingleLineTotals(l: CartItem)
    ensures SumQuantities([l]) == l.quantity
    ensures SumPrices([l]) == LineTotal(l)
  {
    assert [l][..0] == [];
  }

  /** `addToCart` keeps the cart invariant. */
  lemma AddLineWellFormed(cart: seq<CartItem>, p: Product)
    requires WellFormed(cart)
    ensures WellFormed(AddLine(cart, p))
  {
  }

  /** Replacing one line changes each total by the difference between the new line's share
      and the old line's share. */
  lemma ReplaceLineTotals(cart: seq<CartItem>, k: nat, l: CartItem)
    requires k < |cart|
    ensures SumQuantities(cart[k := l]) == SumQuantities(cart) - cart[k].quantity + l.quantity
    ensures SumPrices(cart[k := l]) ==
      SumPrices(cart) - LineTotal(cart[k]) + LineTotal(l)
  {
    var pre, post := cart[..k], cart[k + 1..];
    assert cart == pre + [cart[k]] + post;
    assert cart[k := l] == pre + [l] + post;
    SumQuantitiesAppend(pre + [cart[k]], post);
    SumQuantitiesAppend(pre, [cart[k]]);
    SumQuantitiesAppend(pre + [l], post);
    SumQuantitiesAppend(pre, [l]);
    SumPricesAppend(pre + [cart[k]], post);
    SumPricesAppend(pre, [cart[k]]);
    SumPricesAppend(pre + [l], post);
    SumPricesAppend(pre, [l]);
    SingleLineTotals(cart[k]);
    SingleLineTotals(l);
  }

  /** One more item on a line adds its unit price to the line's total. */
  lemma LineTotalIncrement(l: CartItem)
    ensures LineTotal(l.(quantity := l.quantity + 1)) == LineTotal(l) + UnitPrice(l.product)
  {
    var u := UnitPrice(l.product);
    assert u * (l.quantity + 1) == u * l.quantity + u;
  }

  /** One more item on line `k` adds one to `totalItems` and the line's unit price to
      `totalPrice`. */
  lemma IncrementLineTotals(cart: seq<CartItem>, k: nat)
    requires k < |cart|
    ensures SumQuantities(cart[k := cart[k].(quantity := cart[k].quantity + 1)]) == SumQuantities(cart) + 1
    ensures SumPrices(cart[k := cart[k].(quantity := cart[k].quantity + 1)]) == SumPrices(cart) + UnitPrice(cart[k].product)
  {
    LineTotalIncrement(cart[k]);
    ReplaceLineTotals(cart, k, cart[k].(quantity := cart[k].quantity + 1));
  }

  /** With one line per product, adding an in-stock product that already has line `k` only
      increments that line. */
  lemma AddExistingLine(cart: seq<CartItem>, p: Product, k: nat)
    requires UniqueIds(cart)
    requires p.stock > 0
    requires k < |cart| && cart[k].product.id == p.id
    ensures AddLine(cart, p) == cart[k := cart[k].(quantity := cart[k].quantity + 1)]
  {
    var l := cart[k].(quantity := cart[k].quantity + 1);
    var r := AddLine(cart, p);
    assert HasLine(cart, p.id);
    forall i | 0 <= i < |r| ensures r[i] == cart[k := l][i] {
      if i != k {
        assert cart[i].product.id != p.id;
      }
    }
  }

  /** With one line per product, adding an in-stock product that already has line `k` adds one
      item to `totalItems` and the unit price of that line's snapshot (not of `p`) to
      `totalPrice`. */
  lemma AddExistingTotals(cart: seq<CartItem>, p: Product, k: nat)
    requires UniqueIds(cart)
    requires p.stock > 0
    requires k < |cart| && cart[k].product.id == p.id
    ensures SumQuantities(AddLine(cart, p)) == SumQuantities(cart) + 1
    ensures SumPrices(AddLine(cart, p)) == SumPrices(cart) + UnitPrice(cart[k].product)
  {
    AddExistingLine(cart, p, k);
    IncrementLineTotals(cart, k);
  }

  /** Adding an in-stock product without a line adds one item and its unit price. */
  lemma AddNewTotals(cart: seq<CartItem>, p: Product)
    requires p.stock > 0
    requires !HasLine(cart, p.id)
    ensures SumQuantities(AddLine(cart, p)) == SumQuantities(cart) + 1
    ensures SumPrices(AddLine(cart, p)) == SumPrices(cart) + UnitPrice(p)
  {
    SumQuantitiesAppend(cart, [CartItem(p, 1)]);
    SumPricesAppend(cart, [CartItem(p, 1)]);
    SingleLineTotals(CartItem(p, 1));
  }

  /** `updateQuantity` keeps the cart invariant, whatever `delta` is. */
  lemma UpdateLinesWellFormed(cart: seq<CartItem>, id: string, delta: int)
    requires WellFormed(cart)
    ensures WellFormed(UpdateLines(cart, id, delta))
  {
  }

  /** `removeFromCart` keeps the cart invariant. */
  lemma RemoveLinesWellFormed(cart: seq<CartItem>, id: string)
    requires WellFormed(cart)
    ensures WellFormed(RemoveLines(cart, id))
  {
    var r := RemoveLines(cart, id);
    SubseqKeepsKeysDistinct(r, cart, (l: CartItem) => l.product.id);
    forall i | 0 <= i < |r| ensures r[i].quantity >= 1 {
      assert r[i] in cart;
    }
  }

  /** `n` calls of `addToCart(p)`, one after the other. */
  function AddTimes(cart: seq<CartItem>, p: Product, n: nat): seq<CartItem>
  {
    if n == 0 then cart else AddLine(AddTimes(cart, p, n - 1), p)
  }

  /** Adding an in-stock product `n` times to an empty cart leaves a single line for it
      holding `n` items. */
  lemma {:induction false} AddTimesToEmpty(p: Product, n: nat)
    requires p.stock > 0 && n >= 1
    ensures AddTimes([], p, n) == [CartItem(p, n)]
    ensures SumQuantities(AddTimes([], p, n)) == n
  {
    if n > 1 {
      AddTimesToEmpty(p, n - 1);
      var prev := AddTimes([], p, n - 1);
      assert HasLine(prev, p.id) by { assert prev[0].product.id == p.id; }
    }
    SingleLineTotals(CartItem(p, n));
  }

  /** The cart provider: the cart it was loaded with, and the operations that replace it. */
  class CartProvider {
    var cart: seq<CartItem>

    ghost predicate Valid()
      reads this
    {
      WellFormed(cart)
    }

    /** The provider starts from the cart read back from storage, taken as given. */
    constructor (saved: seq<CartItem>)
      ensures cart == saved
    {
      cart := saved;
    }

    method AddToCart(p: Product)
      modifies this
      ensures cart == AddLine(old(cart), p)
      ensures old(Valid()) ==> Valid()
      ensures old(Valid()) && p.stock > 0 ==> TotalItems() == old(TotalItems()) + 1
      ensures old(Valid()) && p.stock > 0 && !HasLine(old(cart), p.id) ==> TotalPrice() == old(TotalPrice()) + UnitPrice(p)
      ensures old(Valid()) && p.stock > 0 ==> forall k :: 0 <= k < |old(cart)| && old(cart)[k].product.id == p.id ==>
        TotalPrice() == old(TotalPrice()) + UnitPrice(old(cart)[k].product)
    {
      if Valid() {
        AddLineWellFormed(cart, p);
        if p.stock > 0 {
          if HasLine(cart, p.id) {
            forall k | 0 <= k < |cart| && cart[k].product.id == p.id
              ensures SumPrices(AddLine(cart, p)) == SumPrices(cart) + UnitPrice(cart[k].product)
            {
              AddExistingTotals(cart, p, k);
            }
            var k :| 0 <= k < |cart| && cart[k].product.id == p.id;
            AddExistingTotals(cart, p, k);
          } else {
            AddNewTotals(cart, p);
          }
        }
      }
      cart := AddLine(cart, p);
    }

    method RemoveFromCart(id: string)
      modifies this
      ensures cart == RemoveLines(old(cart), id)
      ensures old(Valid()) ==> Valid()
    {
      if Valid() {
        RemoveLinesWellFormed(cart, id);
      }
      cart := RemoveLines(cart, id);
    }

    method UpdateQuantity(id: string, delta: int)
      modifies this
      ensures cart == UpdateLines(old(cart), id, delta)
      ensures old(Valid()) ==> Valid()
    {
      if Valid() {
        UpdateLinesWellFormed(cart, id, delta);
      }
      cart := UpdateLines(cart, id, delta);
    }

    method ClearCart()
      modifies this
      ensures cart == []
      ensures Valid() && TotalItems() == 0 && TotalPrice() == 0
    {
      cart := [];
    }

    /** `totalItems`: at least one per line while the invariant holds. */
    function TotalItems(): (n: int)
      reads this
      ensures Valid() ==> n >= |cart|
    {
      SumQuantities(cart)
    }

    /** `totalPrice`, in fils. */
    function TotalPrice(): (t: int)
      reads this
      ensures (forall i :: 0 <= i < |cart| ==> NonNegative(cart[i])) ==> t >= 0
    {
      SumPrices(cart)
    }
  }
}
