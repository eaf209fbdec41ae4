/**
 * Worked examples of the conversation path on a one-item catalog: resolving a
 * short name, a whole turn from intents to cart and total, and the order
 * sensitivity of a batch.
 */
module Scenarios {
  import opened Wrappers
  import opened MenuTypes
  import opened TextMatch
  import opened CartUtils
  import Intents
  import Storefront

  function Cheeseburger(): MenuItem
  {
    MenuItem("1", "Classic Cheeseburger", None, 650, "Burgers", "B", None)
  }

  /** "burger" resolves to "Classic Cheeseburger": the lower-cased name contains the query. */
  lemma BurgerResolves()
    ensures FindMenuItem([Cheeseburger()], "burger") == Some(Cheeseburger())
  {
    var name := ToLower("Classic Cheeseburger");
    var query := ToLower("burger");
    assert query == "burger";
    assert name[14..20] == "burger";
    assert OccursAt(name, query, 14);
    assert Matches(Cheeseburger(), "burger");
  }

  /** A turn whose intents ask for two burgers yields a cart of two cheeseburgers, 1300 cents in all. */
  lemma BurgerTurn()
    ensures var intents := [Intents.OrderIntent(Intents.OrderAction.Add, Some("burger"), Some(2))];
      var cart := ApplyAll([], Updates(intents, [Cheeseburger()]));
      && cart == [Cheeseburger().(quantity := Some(2))]
      && Storefront.CartTotal(cart) == 1300
  {
    BurgerResolves();
    var intents := [Intents.OrderIntent(Intents.OrderAction.Add, Some("burger"), Some(2))];
    assert Updates(intents, [Cheeseburger()]) == [CartUpdate(Add, Some(Cheeseburger()), Some(2))] by {
      assert intents[1..] == [];
    }
  }

  /** "Add two, then remove one" leaves one; the same updates in the other order leave two. */
  lemma BatchOrderMatters()
    ensures var add, remove := CartUpdate(Add, Some(Cheeseburger()), Some(2)), CartUpdate(Remove, Some(Cheeseburger()), Some(1));
      && ApplyAll([], [add, remove]) == [Cheeseburger().(quantity := Some(1))]
      && ApplyAll([], [remove, add]) == [Cheeseburger().(quantity := Some(2))]
  {
    var add, remove := CartUpdate(Add, Some(Cheeseburger()), Some(2)), CartUpdate(Remove, Some(Cheeseburger()), Some(1));
    var two := [Cheeseburger().(quantity := Some(2))];
    assert UpdateCart([], add) == two;
    assert UpdateCart(two, remove) == [Cheeseburger().(quantity := Some(1))];
    assert [add, remove][1..] == [remove] && [remove][1..] == [];
    assert ApplyAll([], [add, remove]) == ApplyAll(two, [remove]);
    assert ApplyAll(two, [remove]) == ApplyAll([Cheeseburger().(quantity := Some(1))], []);
    assert UpdateCart([], remove) == [];
    assert [remove, add][1..] == [add] && [add][1..] == [];
    assert ApplyAll([], [remove, add]) == ApplyAll([], [add]);
    assert ApplyAll([], [add]) == ApplyAll(two, []);
  }
}
