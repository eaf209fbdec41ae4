/**
 * The catalog entry and cart line records of app/types.ts. A cart line is a
 * catalog entry that carries a quantity; the cart is an ordered sequence of them.
 */
module MenuTypes {
  import opened Wrappers

  /** A catalog item; `price` is in integer cents, `quantity` is set once it sits in a cart. */
  datatype MenuItem = MenuItem(
    id: string,
    name: string,
    description: Option<string>,
    price: int,
    category: string,
    emoji: string,
    quantity: Option<int>)

  type Cart = seq<MenuItem>

  /** JavaScript's `q || fallback` on an optional number: an absent quantity and 0 are falsy. */
  function OrElse(q: Option<int>, fallback: int): int
  {
    if q.Some? && q.value != 0 then q.value else fallback
  }

  /** `q || 1`, the default the cart code applies to every optional quantity. */
  function OrOne(q: Option<int>): (r: int)
    ensures r != 0
    ensures r >= 1 <==> q.None? || q.value >= 0
    ensures q.Some? && q.value != 0 ==> r == q.value
    ensures q.None? || q.value == 0 ==> r == 1
  {
    OrElse(q, 1)
  }
}
