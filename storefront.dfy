/**
 * The storefront page (app/page.tsx): the cart as component state, changed by
 * the "add to cart" and quantity controls, by the voice agent's batches of
 * updates, and emptied when the receipt is closed; and the cart total.
 */
module Storefront {
  import opened Wrappers
  import opened MenuTypes
  import opened CartLines
  import CartUtils
  import Intents

  /** `(line.quantity || 1) + 1`, the new quantity of a line whose item is added again. */
  function Bumped(q: Option<int>): int
  {
    OrOne(q) + 1
  }

  /** The constant quantity function `() => n`. */
  function SetTo(n: int): Option<int> -> int
  {
    _ => n
  }

  /** The `addToCart` transition: bump an existing line, or append the item with quantity 1. */
  function AddedToCart(prev: Cart, item: MenuItem): (r: Cart)
    ensures |prev| <= |r| <= |prev| + 1
    ensures item.id in Ids(r)
  {
    var k := FindIndex(prev, item.id);
    if k >= 0 then
      MapQuantityAt(prev, item.id, Bumped, k);
      assert MapQuantity(prev, item.id, Bumped)[k] in MapQuantity(prev, item.id, Bumped);
      MapQuantity(prev, item.id, Bumped)
    else
      var line := item.(quantity := Some(1));
      assert (prev + [line])[|prev|] == line;
      prev + [line]
  }

  /** The `updateQuantity` transition: below 1 deletes the id's lines, otherwise sets their quantity. */
  function QuantityUpdated(prev: Cart, itemId: string, newQuantity: int): (r: Cart)
    ensures |r| <= |prev|
    ensures newQuantity < 1 ==> itemId !in Ids(r)
  {
    if newQuantity < 1 then
      WithoutMembers(prev, itemId);
      Without(prev, itemId)
    else MapQuantity(prev, itemId, SetTo(newQuantity))
  }

  /** What one line contributes to the total: `(quantity || 1) * price`. */
  function LineTotal(line: MenuItem): int
  {
    OrOne(line.quantity) * line.price
  }

  /** The cart total, `cartItems.reduce((sum, line) => sum + (line.quantity || 1) * line.price, 0)`, in cents. */
  function CartTotal(c: Cart): (r: int)
    ensures c == [] ==> r == 0
  {
    if c == [] then 0 else LineTotal(c[0]) + CartTotal(c[1..])
  }

  // ---------------------------------------------------------------------------
  // addToCart

  /** Adding an item already in the cart bumps every line with its id to `(quantity || 1) + 1`; nothing else changes. */
  lemma AddToCartExisting(c: Cart, item: MenuItem)
    requires item.id in Ids(c)
    ensures var r := AddedToCart(c, item);
      && |r| == |c|
      && forall i :: 0 <= i < |c| ==>
           r[i] == if c[i].id == item.id then c[i].(quantity := Some(OrOne(c[i].quantity) + 1)) else c[i]
  {
    forall i | 0 <= i < |c|
      ensures AddedToCart(c, item)[i]
        == if c[i].id == item.id then c[i].(quantity := Some(OrOne(c[i].quantity) + 1)) else c[i]
    {
      MapQuantityAt(c, item.id, Bumped, i);
    }
  }

  /** Adding an item not in the cart appends exactly one line, with quantity 1. */
  lemma AddToCartNew(c: Cart, item: MenuItem)
    requires item.id !in Ids(c)
    ensures AddedToCart(c, item) == c + [item.(quantity := Some(1))]
  {
  }

  /** What adding one more of an id does to the id-to-quantity view. */
  function BumpQuantity(m: map<string, int>, id: string): map<string, int>
  {
    if id in m then m[id := OrOne(Some(m[id] + 1))] else m[id := 1]
  }

  /** On every cart, `addToCart` sets the id's entry to `(entry + 1) || 1`, or starts it at 1. */
  lemma AddToCartRefines(c: Cart, item: MenuItem)
    ensures Quantities(AddedToCart(c, item)) == BumpQuantity(Quantities(c), item.id)
  {
    QuantitiesKeys(c);
    var k := FindIndex(c, item.id);
    if k >= 0 {
      QuantitiesAt(c, k);
      QuantitiesMapQuantity(c, item.id, Bumped);
    } else {
      QuantitiesAppend(c, item.(quantity := Some(1)));
    }
  }

  lemma AddToCartPreservesWellFormed(c: Cart, item: MenuItem)
    requires WellFormed(c)
    ensures WellFormed(AddedToCart(c, item))
  {
    var k := FindIndex(c, item.id);
    if k >= 0 {
      MapQuantitySingle(c, item.id, Bumped);
    }
  }

  /** "Add to cart" keeps the ids of a cart distinct, whatever its quantities. */
  lemma AddToCartKeepsDistinct(c: Cart, item: MenuItem)
    requires DistinctIds(c)
    ensures DistinctIds(AddedToCart(c, item))
  {
    var k := FindIndex(c, item.id);
    if k >= 0 {
      MapQuantityKeepsDistinct(c, item.id, Bumped);
    } else {
      var r := AddedToCart(c, item);
      forall i, j | 0 <= i < j < |r| ensures r[i].id != r[j].id {
        if j == |c| {
          assert r[i] == c[i];
        }
      }
    }
  }

  // ---------------------------------------------------------------------------
  // updateQuantity

  /** A new quantity below 1 deletes every line with the id and keeps the rest in order. */
  lemma UpdateQuantityBelowOne(c: Cart, itemId: string, newQuantity: int)
    requires newQuantity < 1
    ensures QuantityUpdated(c, itemId, newQuantity) == Without(c, itemId)
    ensures itemId !in Ids(QuantityUpdated(c, itemId, newQuantity))
    ensures Ids(QuantityUpdated(c, itemId, newQuantity)) == Ids(c) - {itemId}
  {
    WithoutMembers(c, itemId);
  }

  /** A new quantity of at least 1 is set on the lines with the id; nothing else changes. */
  lemma UpdateQuantitySets(c: Cart, itemId: string, newQuantity: int)
    requires newQuantity >= 1
    ensures var r := QuantityUpdated(c, itemId, newQuantity);
      && |r| == |c|
      && (forall i :: 0 <= i < |c| ==>
            r[i] == if c[i].id == itemId then c[i].(quantity := Some(newQuantity)) else c[i])
      && (itemId !in Ids(c) ==> r == c)
  {
    var r := QuantityUpdated(c, itemId, newQuantity);
    forall i | 0 <= i < |c|
      ensures r[i] == if c[i].id == itemId then c[i].(quantity := Some(newQuantity)) else c[i]
    {
      MapQuantityAt(c, itemId, SetTo(newQuantity), i);
    }
  }

  /** What `updateQuantity` does to the id-to-quantity view. */
  function SetQuantity(m: map<string, int>, id: string, n: int): map<string, int>
  {
    if n < 1 then m - {id} else if id in m then m[id := n] else m
  }

  lemma UpdateQuantityRefines(c: Cart, itemId: string, newQuantity: int)
    ensures Quantities(QuantityUpdated(c, itemId, newQuantity)) == SetQuantity(Quantities(c), itemId, newQuantity)
  {
    QuantitiesKeys(c);
    if newQuantity < 1 {
      QuantitiesWithout(c, itemId);
    } else {
      QuantitiesMapQuantity(c, itemId, SetTo(newQuantity));
    }
  }

  /** Every `updateQuantity` keeps a well-formed cart well-formed: below 1 the line goes away. */
  lemma UpdateQuantityPreservesWellFormed(c: Cart, itemId: string, newQuantity: int)
    requires WellFormed(c)
    ensures WellFormed(QuantityUpdated(c, itemId, newQuantity))
  {
    if newQuantity < 1 {
      WithoutPreservesWellFormed(c, itemId);
    } else {
      MapQuantitySingle(c, itemId, SetTo(newQuantity));
    }
  }

  /** Every `updateQuantity` keeps the ids of a cart distinct, whatever its quantities. */
  lemma UpdateQuantityKeepsDistinct(c: Cart, itemId: string, newQuantity: int)
    requires DistinctIds(c)
    ensures DistinctIds(QuantityUpdated(c, itemId, newQuantity))
  {
    if newQuantity < 1 {
      WithoutKeepsDistinct(c, itemId);
    } else {
      MapQuantityKeepsDistinct(c, itemId, SetTo(newQuantity));
    }
  }

  // ---------------------------------------------------------------------------
  // The two "add" paths

  /**
   * On a line already in the cart, the conversation path's `add` without a
   * quantity sets the quantity to 1, while the "add to cart" control raises it by one.
   */
  lemma AddPathsDiffer(c: Cart, item: MenuItem)
    requires WellFormed(c) && item.id in Ids(c)
    ensures var before := Quantities(c);
      var voice := Quantities(CartUtils.UpdateCart(c, CartUtils.CartUpdate(CartUtils.Add, Some(item), None)));
      var button := Quantities(AddedToCart(c, item));
      && item.id in before && item.id in voice && item.id in button
      && before[item.id] >= 1
      && voice[item.id] == 1
      && button[item.id] == before[item.id] + 1
  {
    QuantitiesKeys(c);
    var k := FindIndex(c, item.id);
    QuantitiesAt(c, k);
    CartUtils.UpdateCartRefines(c, CartUtils.CartUpdate(CartUtils.Add, Some(item), None));
    AddToCartRefines(c, item);
  }

  // ---------------------------------------------------------------------------
  // The total

  lemma {:induction false} CartTotalAppend(a: Cart, b: Cart)
    ensures CartTotal(a + b) == CartTotal(a) + CartTotal(b)
  {
    if a == [] {
      assert a + b == b;
    } else {
      assert (a + b)[1..] == a[1..] + b;
      CartTotalAppend(a[1..], b);
    }
  }

  /** Replacing one line changes the total by the difference of the two line totals. */
  lemma {:induction false} CartTotalSetAt(c: Cart, k: int, x: MenuItem)
    requires 0 <= k < |c|
    ensures CartTotal(c[k := x]) == CartTotal(c) - LineTotal(c[k]) + LineTotal(x)
  {
    if k == 0 {
      assert c[k := x][1..] == c[1..];
    } else {
      assert c[k := x][1..] == c[1..][k - 1 := x];
      CartTotalSetAt(c[1..], k - 1, x);
    }
  }

  /** With non-negative prices, the total of a well-formed cart is never negative. */
  lemma {:induction false} CartTotalNonNegative(c: Cart)
    requires PositiveQuantities(c)
    requires forall i :: 0 <= i < |c| ==> c[i].price >= 0
    ensures CartTotal(c) >= 0
  {
    if c != [] {
      assert PositiveQuantities(c[1..]);
      CartTotalNonNegative(c[1..]);
    }
  }

  /** Raising a line's quantity from q to q + 1 raises its total by one unit price. */
  lemma BumpedLineTotal(line: MenuItem)
    requires OrOne(line.quantity) >= 1
    ensures LineTotal(line.(quantity := Some(Bumped(line.quantity)))) == LineTotal(line) + line.price
  {
    var q, p := OrOne(line.quantity), line.price;
    assert (q + 1) * p == q * p + p;
  }

  /** In a well-formed cart, "add to cart" raises the total by one unit of the line's (or new item's) price. */
  lemma AddToCartTotal(c: Cart, item: MenuItem)
    requires WellFormed(c)
    ensures var k := FindIndex(c, item.id);
      CartTotal(AddedToCart(c, item)) == CartTotal(c) + (if k >= 0 then c[k].price else item.price)
  {
    var k := FindIndex(c, item.id);
    if k >= 0 {
      var line := c[k].(quantity := Some(Bumped(c[k].quantity)));
      MapQuantitySingle(c, item.id, Bumped);
      assert AddedToCart(c, item) == c[k := line];
      CartTotalSetAt(c, k, line);
      BumpedLineTotal(c[k]);
    } else {
      var line := item.(quantity := Some(1));
      CartTotalAppend(c, [line]);
      assert CartTotal([line]) == LineTotal(line) by {
        assert [line][1..] == [];
      }
    }
  }

  /** The total of a cart cut around one line is the two outer totals plus that line's. */
  lemma CartTotalSplit(front: Cart, x: MenuItem, back: Cart)
    ensures CartTotal(front + [x] + back) == CartTotal(front) + LineTotal(x) + CartTotal(back)
  {
    assert front + [x] + back == front + ([x] + back);
    assert ([x] + back)[1..] == back;
    CartTotalAppend(front, [x] + back);
  }

  /** The total without line k is the total less that line's. */
  lemma CartTotalDropAt(c: Cart, k: int)
    requires 0 <= k < |c|
    ensures CartTotal(c[..k] + c[k + 1..]) == CartTotal(c) - LineTotal(c[k])
  {
    var front, back := c[..k], c[k + 1..];
    SplitAt(c, k);
    CartTotalSplit(front, c[k], back);
    CartTotalAppend(front, back);
  }

  /** Setting a line's quantity to n >= 1 changes its total by the quantity difference times the price. */
  lemma SetLineTotal(line: MenuItem, n: int)
    requires n >= 1
    ensures LineTotal(line.(quantity := Some(n))) - LineTotal(line) == (n - OrOne(line.quantity)) * line.price
  {
    var q, p := OrOne(line.quantity), line.price;
    assert n * p - q * p == (n - q) * p;
  }

  /** In a well-formed cart, `updateQuantity` changes the total by the removed line, or by the change in its quantity. */
  lemma UpdateQuantityTotal(c: Cart, itemId: string, newQuantity: int)
    requires WellFormed(c)
    ensures var k := FindIndex(c, itemId);
      CartTotal(QuantityUpdated(c, itemId, newQuantity))
        == if k == -1 then CartTotal(c)
           else if newQuantity < 1 then CartTotal(c) - LineTotal(c[k])
           else CartTotal(c) + (newQuantity - OrOne(c[k].quantity)) * c[k].price
  {
    var k := FindIndex(c, itemId);
    if newQuantity < 1 {
      if k == -1 {
        WithoutAbsent(c, itemId);
      } else {
        WithoutSingle(c, k);
        CartTotalDropAt(c, k);
      }
    } else {
      MapQuantitySingle(c, itemId, SetTo(newQuantity));
      if k >= 0 {
        var line := c[k].(quantity := Some(newQuantity));
        CartTotalSetAt(c, k, line);
        SetLineTotal(c[k], newQuantity);
      }
    }
  }

  // ---------------------------------------------------------------------------
  // The page's cart state

  /** The state of the storefront page that the cart operations touch. */
  class App {
    /** The catalog, fixed at load time. */
    const menuItems: seq<MenuItem>
    var cartItems: Cart
    var showReceipt: bool
    var orderId: string

    constructor (catalog: seq<MenuItem>)
      ensures menuItems == catalog
      ensures cartItems == [] && !showReceipt && orderId == ""
    {
      menuItems := catalog;
      cartItems := [];
      showReceipt := false;
      orderId := "";
    }

    /** The checkout button's label: the total of the current cart. */
    function Total(): (r: int)
      reads this
      ensures cartItems == [] ==> r == 0
    {
      CartTotal(cartItems)
    }

    /** The "add to cart" control. */
    method AddToCart(item: MenuItem)
      modifies this
      ensures cartItems == AddedToCart(old(cartItems), item)
      ensures showReceipt == old(showReceipt) && orderId == old(orderId)
      ensures old(WellFormed(cartItems)) ==> WellFormed(cartItems)
      ensures old(DistinctIds(cartItems)) ==> DistinctIds(cartItems)
    {
      if WellFormed(cartItems) {
        AddToCartPreservesWellFormed(cartItems, item);
      }
      if DistinctIds(cartItems) {
        AddToCartKeepsDistinct(cartItems, item);
      }
      cartItems := AddedToCart(cartItems, item);
    }

    /** The quantity controls of a cart line. */
    method UpdateQuantity(itemId: string, newQuantity: int)
      modifies this
      ensures cartItems == QuantityUpdated(old(cartItems), itemId, newQuantity)
      ensures showReceipt == old(showReceipt) && orderId == old(orderId)
      ensures old(WellFormed(cartItems)) ==> WellFormed(cartItems)
      ensures old(DistinctIds(cartItems)) ==> DistinctIds(cartItems)
    {
      if WellFormed(cartItems) {
        UpdateQuantityPreservesWellFormed(cartItems, itemId, newQuantity);
      }
      if DistinctIds(cartItems) {
        UpdateQuantityKeepsDistinct(cartItems, itemId, newQuantity);
      }
      if newQuantity < 1 {
        cartItems := Without(cartItems, itemId);
        return;
      }
      cartItems := MapQuantity(cartItems, itemId, SetTo(newQuantity));
    }

    /**
     * One conversation turn: the parsed intents become updates, and a non-empty
     * batch is folded over the current cart, which then replaces it.
     */
    method ProcessTurn(orderIntents: seq<Intents.OrderIntent>)
      modifies this
      ensures cartItems == CartUtils.ApplyAll(old(cartItems), CartUtils.Updates(orderIntents, menuItems))
      ensures showReceipt == old(showReceipt) && orderId == old(orderId)
      ensures old(WellFormed(cartItems)) && (forall i :: 0 <= i < |orderIntents| ==> CartUtils.IntentQuantityOk(orderIntents[i]))
        ==> WellFormed(cartItems)
      ensures old(DistinctIds(cartItems)) ==> DistinctIds(cartItems)
    {
      if DistinctIds(cartItems) {
        CartUtils.ApplyAllKeepsDistinct(cartItems, CartUtils.Updates(orderIntents, menuItems));
      }
      if WellFormed(cartItems) && forall i :: 0 <= i < |orderIntents| ==> CartUtils.IntentQuantityOk(orderIntents[i]) {
        CartUtils.TurnPreservesWellFormed(cartItems, orderIntents, menuItems);
      }
      var cartUpdates := CartUtils.BuildUpdates(orderIntents, menuItems);
      if |cartUpdates| > 0 {
        var updatedCart := CartUtils.ApplyUpdates(cartItems, cartUpdates);
        cartItems := updatedCart;
      }
    }

    /** The checkout button, shown only while the cart has lines; the order id is supplied by the caller. */
    method Checkout(newOrderId: string)
      requires |cartItems| > 0
      modifies this
      ensures showReceipt && orderId == newOrderId && cartItems == old(cartItems)
    {
      orderId := newOrderId;
      showReceipt := true;
    }

    /** The remove button of a cart line in the shopping panel: every line with the id is dropped. */
    method RemoveLine(id: string)
      modifies this
      ensures cartItems == Without(old(cartItems), id)
      ensures id !in Ids(cartItems)
      ensures showReceipt == old(showReceipt) && orderId == old(orderId)
      ensures old(WellFormed(cartItems)) ==> WellFormed(cartItems)
      ensures old(DistinctIds(cartItems)) ==> DistinctIds(cartItems)
    {
      WithoutMembers(cartItems, id);
      if DistinctIds(cartItems) {
        WithoutKeepsDistinct(cartItems, id);
      }
      if WellFormed(cartItems) {
        WithoutPreservesWellFormed(cartItems, id);
      }
      cartItems := Without(cartItems, id);
    }

    /** Closing the receipt hides it and empties the cart. */
    method CloseReceipt()
      modifies this
      ensures !showReceipt && cartItems == [] && orderId == old(orderId)
    {
      showReceipt := false;
      cartItems := [];
    }
  }
}
