/**
 * The conversation path of the cart (app/utils/cartUtils.ts): resolving item
 * names against the catalog, turning order intents into cart updates, and the
 * `updateCart` reducer with the fold that applies a batch of updates in order.
 */
module CartUtils {
  import opened Wrappers
  import opened MenuTypes
  import opened CartLines
  import opened TextMatch
  import Intents

  datatype UpdateAction = Add | Remove | Clear

  /** A resolved cart operation; `item` is absent for `Clear`. */
  datatype CartUpdate = CartUpdate(action: UpdateAction, item: Option<MenuItem>, quantity: Option<int>)

  // ---------------------------------------------------------------------------
  // Item resolution

  /** Case-insensitive containment of the item's name in the query, or of the query in the name. */
  function Matches(item: MenuItem, itemName: string): (r: bool)
    ensures ToLower(item.name) == ToLower(itemName) ==> r
    ensures item.name == "" ==> r
  {
    var name, query := ToLower(item.name), ToLower(itemName);
    IncludesEmptyAndSelf(query);
    Includes(name, query) || Includes(query, name)
  }

  /** Catalog entry i matches and no earlier entry does. */
  predicate FirstMatch(catalog: seq<MenuItem>, itemName: string, i: int)
  {
    0 <= i < |catalog| && Matches(catalog[i], itemName)
    && forall j :: 0 <= j < i ==> !Matches(catalog[j], itemName)
  }

  /** `findMenuItem`: the first catalog entry, in catalog order, that matches the name. */
  function FindMenuItem(catalog: seq<MenuItem>, itemName: string): (r: Option<MenuItem>)
    ensures r.None? <==> forall i :: 0 <= i < |catalog| ==> !Matches(catalog[i], itemName)
    ensures r.Some? ==> exists i :: FirstMatch(catalog, itemName, i) && catalog[i] == r.value
  {
    if catalog == [] then None
    else if Matches(catalog[0], itemName) then
      assert FirstMatch(catalog, itemName, 0);
      Some(catalog[0])
    else
      var r := FindMenuItem(catalog[1..], itemName);
      assert r.Some? ==> exists i :: FirstMatch(catalog, itemName, i) && catalog[i] == r.value by {
        if r.Some? {
          var i :| FirstMatch(catalog[1..], itemName, i) && catalog[1..][i] == r.value;
          assert FirstMatch(catalog, itemName, i + 1);
        }
      }
      assert r.None? ==> forall i :: 0 <= i < |catalog| ==> !Matches(catalog[i], itemName) by {
        if r.None? {
          forall i | 0 <= i < |catalog| ensures !Matches(catalog[i], itemName) {
            if i > 0 { assert catalog[i] == catalog[1..][i - 1]; }
          }
        }
      }
      r
  }

  // ---------------------------------------------------------------------------
  // The reducer

  /** `updateCart`: apply one update to the cart, returning a new cart. */
  function UpdateCart(currentCart: Cart, update: CartUpdate): (r: Cart)
    ensures update.action == Clear ==> r == []
    ensures update.action != Clear && update.item.None? ==> r == currentCart
    ensures |r| <= |currentCart| + 1
  {
    match update.action
    case Add =>
      if update.item.None? then currentCart
      else
        var item := update.item.value;
        var k := FindIndex(currentCart, item.id);
        var line := item.(quantity := Some(OrOne(update.quantity)));
        if k >= 0 then currentCart[k := line] else currentCart + [line]
    case Remove =>
      if update.item.None? then currentCart
      else
        var id := update.item.value.id;
        var k := FindIndex(currentCart, id);
        if k == -1 then currentCart
        else
          var current := currentCart[k];
          var removeQuantity := OrElse(update.quantity, OrOne(current.quantity));
          if removeQuantity >= OrOne(current.quantity) then Without(currentCart, id)
          else currentCart[k := current.(quantity := Some(OrOne(current.quantity) - removeQuantity))]
    case Clear => []
  }

  /** An `add` or `remove` brings in and takes out only lines with the update's item id. */
  lemma UpdateCartFrame(c: Cart, update: CartUpdate)
    requires update.action != Clear
    ensures forall x :: x in UpdateCart(c, update) && x !in c ==> update.item.Some? && x.id == update.item.value.id
    ensures forall x :: x in c && x !in UpdateCart(c, update) ==> update.item.Some? && x.id == update.item.value.id
  {
    if update.item.Some? {
      var id := update.item.value.id;
      var k := FindIndex(c, id);
      if update.action == Add {
        var line := update.item.value.(quantity := Some(OrOne(update.quantity)));
        if k >= 0 {
          SetAtMembers(c, k, line);
        }
      } else if k >= 0 {
        var current := c[k];
        var removeQuantity := OrElse(update.quantity, OrOne(current.quantity));
        if removeQuantity >= OrOne(current.quantity) {
          WithoutMembers(c, id);
        } else {
          SetAtMembers(c, k, current.(quantity := Some(OrOne(current.quantity) - removeQuantity)));
        }
      }
    }
  }

  /**
   * What an update does to the id-to-quantity view of a cart: `add` sets the
   * quantity, `remove` subtracts or deletes, `clear` empties.
   */
  function UpdateQuantities(m: map<string, int>, update: CartUpdate): map<string, int>
  {
    match update.action
    case Clear => map[]
    case Add => if update.item.None? then m else m[update.item.value.id := OrOne(update.quantity)]
    case Remove =>
      if update.item.None? || update.item.value.id !in m then m
      else
        var id := update.item.value.id;
        var removeQuantity := OrElse(update.quantity, m[id]);
        if removeQuantity >= m[id] then m - {id} else m[id := m[id] - removeQuantity]
  }

  /** The reducer implements the map-level semantics on every cart, well-formed or not. */
  lemma UpdateCartRefines(c: Cart, update: CartUpdate)
    ensures Quantities(UpdateCart(c, update)) == UpdateQuantities(Quantities(c), update)
  {
    QuantitiesKeys(c);
    if update.action != Clear && update.item.Some? {
      var item := update.item.value;
      var k := FindIndex(c, item.id);
      if update.action == Add {
        var line := item.(quantity := Some(OrOne(update.quantity)));
        if k >= 0 {
          QuantitiesSetAt(c, k, line);
        } else {
          QuantitiesAppend(c, line);
        }
      } else if k >= 0 {
        QuantitiesAt(c, k);
        var current := c[k];
        var removeQuantity := OrElse(update.quantity, OrOne(current.quantity));
        if removeQuantity >= OrOne(current.quantity) {
          QuantitiesWithout(c, item.id);
        } else {
          QuantitiesSetAt(c, k, current.(quantity := Some(OrOne(current.quantity) - removeQuantity)));
        }
      }
    }
  }

  /** `add` on an id already in the cart overwrites that line's quantity with `quantity || 1`. */
  lemma AddOverwrites(c: Cart, item: MenuItem, quantity: Option<int>)
    requires FindIndex(c, item.id) >= 0
    ensures var r, k := UpdateCart(c, CartUpdate(Add, Some(item), quantity)), FindIndex(c, item.id);
      && |r| == |c|
      && r[k] == item.(quantity := Some(OrOne(quantity)))
      && (forall j :: 0 <= j < |c| && j != k ==> r[j] == c[j])
  {
  }

  /** `add` on a new id appends one line with `quantity || 1` and keeps the earlier lines. */
  lemma AddAppends(c: Cart, item: MenuItem, quantity: Option<int>)
    requires item.id !in Ids(c)
    ensures UpdateCart(c, CartUpdate(Add, Some(item), quantity)) == c + [item.(quantity := Some(OrOne(quantity)))]
  {
  }

  /** `remove` of an id that is not in the cart changes nothing. */
  lemma RemoveAbsentIsNoop(c: Cart, item: MenuItem, quantity: Option<int>)
    requires item.id !in Ids(c)
    ensures UpdateCart(c, CartUpdate(Remove, Some(item), quantity)) == c
  {
  }

  /**
   * `remove` with a quantity that is absent, 0, or at least the line's quantity
   * deletes every line with the id; the other lines keep their order.
   */
  lemma RemoveDeletes(c: Cart, item: MenuItem, quantity: Option<int>)
    requires FindIndex(c, item.id) >= 0
    requires var current := OrOne(c[FindIndex(c, item.id)].quantity);
      quantity.None? || quantity.value == 0 || quantity.value >= current
    ensures var r := UpdateCart(c, CartUpdate(Remove, Some(item), quantity));
      && r == Without(c, item.id)
      && item.id !in Ids(r)
      && (DistinctIds(c) ==> var k := FindIndex(c, item.id); r == c[..k] + c[k + 1..])
  {
    var k := FindIndex(c, item.id);
    var r := UpdateCart(c, CartUpdate(Remove, Some(item), quantity));
    assert r == Without(c, item.id);
    assert item.id !in Ids(r) by {
      WithoutMembers(c, item.id);
    }
    if DistinctIds(c) {
      WithoutSingle(c, k);
    }
  }

  /**
   * `remove` with a quantity below the line's quantity subtracts it from that
   * line only; the new quantity is at least 1.
   */
  lemma RemoveDecrements(c: Cart, item: MenuItem, q: int, k: int)
    requires k == FindIndex(c, item.id) && k >= 0
    requires q != 0 && q < OrOne(c[k].quantity)
    ensures OrOne(c[k].quantity) - q >= 1
    ensures UpdateCart(c, CartUpdate(Remove, Some(item), Some(q))) == c[k := c[k].(quantity := Some(OrOne(c[k].quantity) - q))]
  {
    var current := c[k];
    var update := CartUpdate(Remove, Some(item), Some(q));
    assert update.action == Remove && update.item.Some? && update.item.value.id == item.id;
    assert OrElse(update.quantity, OrOne(current.quantity)) == q;
    assert !(q >= OrOne(current.quantity));
  }

  /** The update's quantity cannot make an `add` store a quantity below 1. */
  predicate AddQuantityOk(update: CartUpdate)
  {
    update.action == Add ==> update.quantity.None? || update.quantity.value >= 0
  }

  /** The reducer keeps ids distinct and quantities positive. */
  lemma UpdateCartPreservesWellFormed(c: Cart, update: CartUpdate)
    requires WellFormed(c) && AddQuantityOk(update)
    ensures WellFormed(UpdateCart(c, update))
  {
    var r := UpdateCart(c, update);
    if update.action != Clear && update.item.Some? {
      var id := update.item.value.id;
      var k := FindIndex(c, id);
      if update.action == Remove && k >= 0 {
        var removeQuantity := OrElse(update.quantity, OrOne(c[k].quantity));
        if removeQuantity >= OrOne(c[k].quantity) {
          WithoutPreservesWellFormed(c, id);
        }
      }
    }
  }

  /** Every update, a negative `add` included, keeps the ids of a cart distinct. */
  lemma UpdateCartKeepsDistinct(c: Cart, update: CartUpdate)
    requires DistinctIds(c)
    ensures DistinctIds(UpdateCart(c, update))
  {
    if update.action != Clear && update.item.Some? {
      var id := update.item.value.id;
      var k := FindIndex(c, id);
      var r := UpdateCart(c, update);
      if update.action == Add && k == -1 {
        var line := update.item.value.(quantity := Some(OrOne(update.quantity)));
        assert r == c + [line];
        forall i, j | 0 <= i < j < |r| ensures r[i].id != r[j].id {
          if j == |c| {
            assert r[i] == c[i];
          }
        }
      } else if update.action == Remove && k >= 0 {
        var removeQuantity := OrElse(update.quantity, OrOne(c[k].quantity));
        if removeQuantity >= OrOne(c[k].quantity) {
          WithoutKeepsDistinct(c, id);
        }
      }
    }
  }

  // ---------------------------------------------------------------------------
  // Applying a batch

  /** Apply a batch of updates in order, each to the cart the previous one left. */
  function ApplyAll(c: Cart, updates: seq<CartUpdate>): (r: Cart)
    ensures |r| <= |c| + |updates|
    ensures updates != [] && updates[|updates| - 1].action == Clear ==> r == []
    decreases updates
  {
    if updates == [] then c else ApplyAll(UpdateCart(c, updates[0]), updates[1..])
  }

  /** Applying two batches one after the other is applying their concatenation. */
  lemma {:induction false} ApplyAllAppend(c: Cart, a: seq<CartUpdate>, b: seq<CartUpdate>)
    ensures ApplyAll(c, a + b) == ApplyAll(ApplyAll(c, a), b)
    decreases a
  {
    if a == [] {
      assert a + b == b;
    } else {
      assert (a + b)[1..] == a[1..] + b;
      ApplyAllAppend(UpdateCart(c, a[0]), a[1..], b);
    }
  }

  /** A batch of one update is that update. */
  lemma ApplyAllSingle(c: Cart, u: CartUpdate)
    ensures ApplyAll(c, [u]) == UpdateCart(c, u)
  {
    assert [u][1..] == [];
  }

  /** A batch of updates keeps the ids of a cart distinct. */
  lemma {:induction false} ApplyAllKeepsDistinct(c: Cart, updates: seq<CartUpdate>)
    requires DistinctIds(c)
    ensures DistinctIds(ApplyAll(c, updates))
    decreases updates
  {
    if updates != [] {
      UpdateCartKeepsDistinct(c, updates[0]);
      ApplyAllKeepsDistinct(UpdateCart(c, updates[0]), updates[1..]);
    }
  }

  /** A `clear` in a batch discards everything the cart held before it. */
  lemma ClearResets(c: Cart, a: seq<CartUpdate>, b: seq<CartUpdate>, clear: CartUpdate)
    requires clear.action == Clear
    ensures ApplyAll(c, a + [clear] + b) == ApplyAll([], b)
  {
    ApplyAllAppend(c, a + [clear], b);
    ApplyAllAppend(c, a, [clear]);
  }

  /** The map-level semantics of a batch. */
  function FoldQuantities(m: map<string, int>, updates: seq<CartUpdate>): map<string, int>
    decreases updates
  {
    if updates == [] then m else FoldQuantities(UpdateQuantities(m, updates[0]), updates[1..])
  }

  lemma {:induction false} ApplyAllRefines(c: Cart, updates: seq<CartUpdate>)
    ensures Quantities(ApplyAll(c, updates)) == FoldQuantities(Quantities(c), updates)
    decreases updates
  {
    if updates != [] {
      UpdateCartRefines(c, updates[0]);
      ApplyAllRefines(UpdateCart(c, updates[0]), updates[1..]);
    }
  }

  lemma {:induction false} ApplyAllPreservesWellFormed(c: Cart, updates: seq<CartUpdate>)
    requires WellFormed(c)
    requires forall i :: 0 <= i < |updates| ==> AddQuantityOk(updates[i])
    ensures WellFormed(ApplyAll(c, updates))
    decreases updates
  {
    if updates != [] {
      UpdateCartPreservesWellFormed(c, updates[0]);
      ApplyAllPreservesWellFormed(UpdateCart(c, updates[0]), updates[1..]);
    }
  }

  /** The batch loop of the avatar component: `updatedCart = updateCart(updatedCart, update)` for each update. */
  method ApplyUpdates(currentCart: Cart, cartUpdates: seq<CartUpdate>) returns (updatedCart: Cart)
    ensures updatedCart == ApplyAll(currentCart, cartUpdates)
  {
    updatedCart := currentCart;
    for i := 0 to |cartUpdates|
      invariant updatedCart == ApplyAll(currentCart, cartUpdates[..i])
    {
      assert cartUpdates[..i + 1] == cartUpdates[..i] + [cartUpdates[i]];
      ApplyAllAppend(currentCart, cartUpdates[..i], [cartUpdates[i]]);
      ApplyAllSingle(updatedCart, cartUpdates[i]);
      updatedCart := UpdateCart(updatedCart, cartUpdates[i]);
    }
    assert cartUpdates[..|cartUpdates|] == cartUpdates;
  }

  /** A catalog entry whose name is empty matches every query, so it is found whenever no earlier entry matches. */
  lemma EmptyNameMatchesAll(catalog: seq<MenuItem>, itemName: string)
    requires |catalog| > 0 && catalog[0].name == ""
    ensures FindMenuItem(catalog, itemName) == Some(catalog[0])
  {
    assert ToLower(catalog[0].name) == "";
    IncludesEmptyAndSelf(ToLower(itemName));
  }

  /** An entry is always found by its own name: either it or an earlier match is returned. */
  lemma OwnNameFound(catalog: seq<MenuItem>, k: int)
    requires 0 <= k < |catalog|
    ensures FindMenuItem(catalog, catalog[k].name).Some?
  {
    IncludesEmptyAndSelf(ToLower(catalog[k].name));
    assert Matches(catalog[k], catalog[k].name);
  }

  // ---------------------------------------------------------------------------
  // From intents to updates

  /** The intent names an item: `itemName` is present and not the empty string. */
  predicate HasName(intent: Intents.OrderIntent)
  {
    intent.itemName.Some? && intent.itemName.value != ""
  }

  /** The update one intent turns into, if any. */
  function ConvertIntent(intent: Intents.OrderIntent, catalog: seq<MenuItem>): (r: Option<CartUpdate>)
    ensures intent.action == Intents.OrderAction.Checkout ==> r.None?
    ensures intent.action == Intents.OrderAction.Clear ==> r == Some(CartUpdate(Clear, None, None))
    ensures intent.action == Intents.OrderAction.Add || intent.action == Intents.OrderAction.Remove ==>
      (r.Some? <==> HasName(intent) && FindMenuItem(catalog, intent.itemName.value).Some?)
    ensures r.Some? && r.value.action != Clear ==>
      HasName(intent) && r.value.item.Some? && r.value.item.value in catalog
      && Matches(r.value.item.value, intent.itemName.value)
    ensures intent.action == Intents.OrderAction.Add && r.Some? ==>
      r.value.action == Add && HasName(intent) && r.value.item == FindMenuItem(catalog, intent.itemName.value)
    ensures intent.action == Intents.OrderAction.Remove && r.Some? ==>
      r.value.action == Remove && HasName(intent) && r.value.item == FindMenuItem(catalog, intent.itemName.value)
    ensures r.Some? && r.value.action == Add ==>
      intent.action == Intents.OrderAction.Add && r.value.quantity == Some(OrOne(intent.quantity))
    ensures r.Some? && r.value.action == Remove ==>
      intent.action == Intents.OrderAction.Remove && r.value.quantity == intent.quantity
  {
    match intent.action
    case Add =>
      if !HasName(intent) then None
      else
        var menuItem := FindMenuItem(catalog, intent.itemName.value);
        if menuItem.None? then None
        else Some(CartUpdate(Add, menuItem, Some(OrOne(intent.quantity))))
    case Remove =>
      if !HasName(intent) then None
      else
        var menuItem := FindMenuItem(catalog, intent.itemName.value);
        if menuItem.None? then None
        else Some(CartUpdate(Remove, menuItem, intent.quantity))
    case Clear => Some(CartUpdate(Clear, None, None))
    case Checkout => None
  }

  /** The updates a sequence of intents turns into, in intent order. */
  function Updates(intents: seq<Intents.OrderIntent>, catalog: seq<MenuItem>): (r: seq<CartUpdate>)
    ensures |r| <= |intents|
    ensures forall u :: u in r ==> u.action == Clear || (u.item.Some? && u.item.value in catalog)
  {
    if intents == [] then []
    else
      var head := ConvertIntent(intents[0], catalog);
      (if head.Some? then [head.value] else []) + Updates(intents[1..], catalog)
  }

  /** Conversion is per intent: the updates of a concatenation are the concatenated updates. */
  lemma {:induction false} UpdatesAppend(a: seq<Intents.OrderIntent>, b: seq<Intents.OrderIntent>, catalog: seq<MenuItem>)
    ensures Updates(a + b, catalog) == Updates(a, catalog) + Updates(b, catalog)
  {
    if a == [] {
      assert a + b == b;
    } else {
      assert (a + b)[1..] == a[1..] + b;
      assert (a + b)[0] == a[0];
      UpdatesAppend(a[1..], b, catalog);
      var head := ConvertIntent(a[0], catalog);
      var first := if head.Some? then [head.value] else [];
      calc {
        Updates(a + b, catalog);
        first + Updates(a[1..] + b, catalog);
        first + (Updates(a[1..], catalog) + Updates(b, catalog));
        (first + Updates(a[1..], catalog)) + Updates(b, catalog);
        Updates(a, catalog) + Updates(b, catalog);
      }
    }
  }

  /** The updates of one intent are its conversion, if any. */
  lemma UpdatesSingle(intent: Intents.OrderIntent, catalog: seq<MenuItem>)
    ensures var head := ConvertIntent(intent, catalog);
      Updates([intent], catalog) == if head.Some? then [head.value] else []
  {
    assert [intent][1..] == [];
  }

  /** An `add` intent whose quantity is not negative. */
  predicate IntentQuantityOk(intent: Intents.OrderIntent)
  {
    intent.action == Intents.OrderAction.Add ==> intent.quantity.None? || intent.quantity.value >= 0
  }

  /** The updates built from intents with non-negative `add` quantities all have acceptable quantities. */
  lemma {:induction false} UpdatesQuantitiesOk(intents: seq<Intents.OrderIntent>, catalog: seq<MenuItem>)
    requires forall i :: 0 <= i < |intents| ==> IntentQuantityOk(intents[i])
    ensures forall i :: 0 <= i < |Updates(intents, catalog)| ==> AddQuantityOk(Updates(intents, catalog)[i])
  {
    if intents != [] {
      UpdatesQuantitiesOk(intents[1..], catalog);
      ConvertQuantityOk(intents[0], catalog);
      var head := ConvertIntent(intents[0], catalog);
      var first := if head.Some? then [head.value] else [];
      var rest := Updates(intents[1..], catalog);
      var us := Updates(intents, catalog);
      assert us == first + rest;
      forall i | 0 <= i < |us| ensures AddQuantityOk(us[i]) {
        if i < |first| {
          assert us[i] == head.value;
        } else {
          assert us[i] == rest[i - |first|];
        }
      }
    }
  }

  /** An intent with an acceptable quantity converts to an update with an acceptable quantity. */
  lemma ConvertQuantityOk(intent: Intents.OrderIntent, catalog: seq<MenuItem>)
    requires IntentQuantityOk(intent)
    ensures var head := ConvertIntent(intent, catalog); head.Some? ==> AddQuantityOk(head.value)
  {
  }

  /** A conversation turn keeps a well-formed cart well-formed. */
  lemma TurnPreservesWellFormed(c: Cart, intents: seq<Intents.OrderIntent>, catalog: seq<MenuItem>)
    requires WellFormed(c)
    requires forall i :: 0 <= i < |intents| ==> IntentQuantityOk(intents[i])
    ensures WellFormed(ApplyAll(c, Updates(intents, catalog)))
  {
    UpdatesQuantitiesOk(intents, catalog);
    ApplyAllPreservesWellFormed(c, Updates(intents, catalog));
  }

  /** The conversion loop of `processConversationForCart`, with the parsed intents as input. */
  method BuildUpdates(orderIntents: seq<Intents.OrderIntent>, menuItems: seq<MenuItem>) returns (updates: seq<CartUpdate>)
    ensures updates == Updates(orderIntents, menuItems)
  {
    updates := [];
    for i := 0 to |orderIntents|
      invariant updates == Updates(orderIntents[..i], menuItems)
    {
      var intent := orderIntents[i];
      assert orderIntents[..i + 1] == orderIntents[..i] + [intent];
      UpdatesAppend(orderIntents[..i], [intent], menuItems);
      UpdatesSingle(intent, menuItems);
      match intent.action
      case Add =>
        if HasName(intent) {
          var menuItem := FindMenuItem(menuItems, intent.itemName.value);
          if menuItem.Some? {
            updates := updates + [CartUpdate(Add, menuItem, Some(OrOne(intent.quantity)))];
          }
        }
      case Remove =>
        if HasName(intent) {
          var menuItem := FindMenuItem(menuItems, intent.itemName.value);
          if menuItem.Some? {
            updates := updates + [CartUpdate(Remove, menuItem, intent.quantity)];
          }
        }
      case Clear =>
        updates := updates + [CartUpdate(Clear, None, None)];
      case Checkout =>
    }
    assert orderIntents[..|orderIntents|] == orderIntents;
  }
}
