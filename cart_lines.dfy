/**
 * The list operations both cart entry points are built from (`findIndex`,
 * `filter` by id, `map` over the lines with an id), the cart invariants, and
 * the abstract view of a cart as a map from item id to quantity.
 */
module CartLines {
  import opened Wrappers
  import opened MenuTypes

  /** The ids of the lines of a cart. */
  function Ids(c: Cart): set<string>
  {
    set x | x in c :: x.id
  }

  /** `cart.findIndex(line => line.id === id)`: the first line with the id, or -1. */
  function FindIndex(c: Cart, id: string): (r: int)
    ensures -1 <= r < |c|
    ensures 0 <= r ==> c[r].id == id && forall j :: 0 <= j < r ==> c[j].id != id
    ensures r == -1 ==> forall j :: 0 <= j < |c| ==> c[j].id != id
  {
    if c == [] then -1
    else if c[0].id == id then 0
    else
      var k := FindIndex(c[1..], id);
      if k == -1 then -1 else k + 1
  }

  /** `cart.filter(line => line.id !== id)`. */
  function Without(c: Cart, id: string): (r: Cart)
    ensures |r| <= |c|
  {
    if c == [] then []
    else if c[0].id == id then Without(c[1..], id)
    else [c[0]] + Without(c[1..], id)
  }

  /** The filtered cart holds exactly the lines whose id differs. */
  lemma {:induction false} WithoutMembers(c: Cart, id: string)
    ensures forall x :: x in Without(c, id) <==> x in c && x.id != id
  {
    if c != [] {
      WithoutMembers(c[1..], id);
      assert forall x :: x in c <==> x == c[0] || x in c[1..];
    }
  }

  /** `cart.map(line => line.id === id ? { ...line, quantity: g(line.quantity) } : line)`. */
  function MapQuantity(c: Cart, id: string, g: Option<int> -> int): (r: Cart)
    ensures |r| == |c|
  {
    if c == [] then []
    else
      var line := if c[0].id == id then c[0].(quantity := Some(g(c[0].quantity))) else c[0];
      [line] + MapQuantity(c[1..], id, g)
  }

  /** The lines with the id get quantity `g(quantity)`; every other line is left as it was. */
  lemma {:induction false} MapQuantityAt(c: Cart, id: string, g: Option<int> -> int, i: int)
    requires 0 <= i < |c|
    ensures MapQuantity(c, id, g)[i] == if c[i].id == id then c[i].(quantity := Some(g(c[i].quantity))) else c[i]
  {
    if i > 0 {
      MapQuantityAt(c[1..], id, g, i - 1);
    }
  }

  /** No two lines share an id. */
  predicate DistinctIds(c: Cart)
  {
    forall i, j :: 0 <= i < j < |c| ==> c[i].id != c[j].id
  }

  /** Every line carries an explicit quantity of at least 1. */
  predicate PositiveQuantities(c: Cart)
  {
    forall i :: 0 <= i < |c| ==> c[i].quantity.Some? && c[i].quantity.value >= 1
  }

  /** The cart invariant: distinct ids and positive quantities. */
  predicate WellFormed(c: Cart)
  {
    DistinctIds(c) && PositiveQuantities(c)
  }

  /**
   * The cart seen as a map from item id to `quantity || 1`. When ids repeat,
   * the first line wins, as it does for `findIndex`.
   */
  function Quantities(c: Cart): map<string, int>
  {
    if c == [] then map[] else Quantities(c[1..])[c[0].id := OrOne(c[0].quantity)]
  }

  /** The map has an entry for exactly the ids in the cart. */
  lemma {:induction false} QuantitiesKeys(c: Cart)
    ensures Quantities(c).Keys == Ids(c)
  {
    if c != [] {
      QuantitiesKeys(c[1..]);
      forall x | x in c ensures x == c[0] || x in c[1..] {
        var i :| 0 <= i < |c| && c[i] == x;
        if i > 0 { assert c[1..][i - 1] == x; }
      }
    }
  }

  lemma {:induction false} WithoutAppend(a: Cart, b: Cart, id: string)
    ensures Without(a + b, id) == Without(a, id) + Without(b, id)
  {
    if a == [] {
      assert a + b == b;
    } else {
      assert (a + b)[1..] == a[1..] + b;
      WithoutAppend(a[1..], b, id);
    }
  }

  /** Filtering out an id no line carries leaves the cart as it was. */
  lemma {:induction false} WithoutAbsent(c: Cart, id: string)
    requires forall j :: 0 <= j < |c| ==> c[j].id != id
    ensures Without(c, id) == c
  {
    if c != [] {
      WithoutAbsent(c[1..], id);
    }
  }

  /** A cart is the lines before k, line k, and the lines after it. */
  lemma SplitAt(c: Cart, k: int)
    requires 0 <= k < |c|
    ensures c == c[..k] + [c[k]] + c[k + 1..]
  {
    assert c == c[..k] + c[k..];
    assert c[k..] == [c[k]] + c[k + 1..];
  }

  /** Dropping the one line that carries the id from between two runs of other lines. */
  lemma WithoutSplit(front: Cart, x: MenuItem, back: Cart)
    requires forall j :: 0 <= j < |front| ==> front[j].id != x.id
    requires forall j :: 0 <= j < |back| ==> back[j].id != x.id
    ensures Without(front + [x] + back, x.id) == front + back
  {
    WithoutAbsent(front, x.id);
    WithoutAbsent(back, x.id);
    assert Without([x], x.id) == [] by {
      assert [x][1..] == [];
    }
    assert front + [x] + back == front + ([x] + back);
    WithoutAppend(front, [x] + back, x.id);
    WithoutAppend([x], back, x.id);
  }

  /** In a cart with distinct ids, filtering out the id of line k removes exactly that line. */
  lemma WithoutSingle(c: Cart, k: int)
    requires DistinctIds(c) && 0 <= k < |c|
    ensures Without(c, c[k].id) == c[..k] + c[k + 1..]
  {
    var front, back := c[..k], c[k + 1..];
    forall j | 0 <= j < |front| ensures front[j].id != c[k].id {
      assert front[j] == c[j];
    }
    forall j | 0 <= j < |back| ensures back[j].id != c[k].id {
      assert back[j] == c[k + 1 + j];
    }
    SplitAt(c, k);
    WithoutSplit(front, c[k], back);
  }

  /** Quantities(c) at the id of the first line carrying it. */
  lemma {:induction false} QuantitiesAt(c: Cart, k: int)
    requires 0 <= k < |c| && FindIndex(c, c[k].id) == k
    ensures c[k].id in Quantities(c) && Quantities(c)[c[k].id] == OrOne(c[k].quantity)
  {
    if k > 0 {
      QuantitiesAt(c[1..], k - 1);
    }
  }

  /** Replacing the first line of an id updates only that id's entry. */
  lemma {:induction false} QuantitiesSetAt(c: Cart, k: int, x: MenuItem)
    requires 0 <= k < |c| && FindIndex(c, x.id) == k
    ensures Quantities(c[k := x]) == Quantities(c)[x.id := OrOne(x.quantity)]
  {
    if k == 0 {
      assert c[k := x][1..] == c[1..];
    } else {
      assert c[k := x][1..] == c[1..][k - 1 := x];
      QuantitiesSetAt(c[1..], k - 1, x);
    }
  }

  /** Appending a line for a new id adds exactly that id's entry. */
  lemma {:induction false} QuantitiesAppend(c: Cart, x: MenuItem)
    requires x.id !in Ids(c)
    ensures Quantities(c + [x]) == Quantities(c)[x.id := OrOne(x.quantity)]
  {
    if c != [] {
      assert (c + [x])[1..] == c[1..] + [x];
      assert Ids(c[1..]) <= Ids(c) by {
        forall y | y in c[1..] ensures y in c { }
      }
      QuantitiesAppend(c[1..], x);
    }
  }

  /** Filtering out an id removes exactly that id's entry. */
  lemma {:induction false} QuantitiesWithout(c: Cart, id: string)
    ensures Quantities(Without(c, id)) == Quantities(c) - {id}
  {
    if c != [] {
      var m, v := Quantities(c[1..]), OrOne(c[0].quantity);
      QuantitiesWithout(c[1..], id);
      if c[0].id == id {
        assert m[id := v] - {id} == m - {id};
      } else {
        assert ([c[0]] + Without(c[1..], id))[1..] == Without(c[1..], id);
        assert (m - {id})[c[0].id := v] == m[c[0].id := v] - {id};
      }
    }
  }

  /** Mapping the quantity of an id's lines changes only that id's entry, to the first line's new quantity. */
  lemma {:induction false} QuantitiesMapQuantity(c: Cart, id: string, g: Option<int> -> int)
    ensures var k := FindIndex(c, id);
      Quantities(MapQuantity(c, id, g))
        == if k == -1 then Quantities(c) else Quantities(c)[id := OrOne(Some(g(c[k].quantity)))]
  {
    if c != [] {
      var r := MapQuantity(c, id, g);
      var tail := MapQuantity(c[1..], id, g);
      assert r[1..] == tail;
      QuantitiesMapQuantity(c[1..], id, g);
      if c[0].id == id {
        QuantitiesMapQuantityHead(c, id, g);
      } else {
        QuantitiesMapQuantityOther(c, id, g);
      }
    }
  }

  /** The step of QuantitiesMapQuantity when the first line carries the id. */
  lemma QuantitiesMapQuantityHead(c: Cart, id: string, g: Option<int> -> int)
    requires c != [] && c[0].id == id
    requires var k1 := FindIndex(c[1..], id);
      Quantities(MapQuantity(c[1..], id, g))
        == if k1 == -1 then Quantities(c[1..]) else Quantities(c[1..])[id := OrOne(Some(g(c[1..][k1].quantity)))]
    ensures Quantities(MapQuantity(c, id, g)) == Quantities(c)[id := OrOne(Some(g(c[0].quantity)))]
  {
    var r := MapQuantity(c, id, g);
    assert r[1..] == MapQuantity(c[1..], id, g);
    assert r[0].id == id;
    var m := Quantities(c[1..]);
    var v := OrOne(Some(g(c[0].quantity)));
    assert Quantities(r) == Quantities(r[1..])[id := v];
    var k1 := FindIndex(c[1..], id);
    if k1 != -1 {
      assert m[id := OrOne(Some(g(c[1..][k1].quantity)))][id := v] == m[id := v];
    }
    assert m[id := OrOne(c[0].quantity)][id := v] == m[id := v];
  }

  /** The step of QuantitiesMapQuantity when the first line carries another id. */
  lemma QuantitiesMapQuantityOther(c: Cart, id: string, g: Option<int> -> int)
    requires c != [] && c[0].id != id
    requires var k1 := FindIndex(c[1..], id);
      Quantities(MapQuantity(c[1..], id, g))
        == if k1 == -1 then Quantities(c[1..]) else Quantities(c[1..])[id := OrOne(Some(g(c[1..][k1].quantity)))]
    ensures var k := FindIndex(c, id);
      Quantities(MapQuantity(c, id, g))
        == if k == -1 then Quantities(c) else Quantities(c)[id := OrOne(Some(g(c[k].quantity)))]
  {
    var r := MapQuantity(c, id, g);
    assert r[1..] == MapQuantity(c[1..], id, g);
    assert r[0] == c[0];
    var m := Quantities(c[1..]);
    var w := OrOne(c[0].quantity);
    assert Quantities(r) == Quantities(r[1..])[c[0].id := w];
    var k1 := FindIndex(c[1..], id);
    if k1 != -1 {
      assert c[k1 + 1] == c[1..][k1];
      var v := OrOne(Some(g(c[1..][k1].quantity)));
      assert m[id := v][c[0].id := w] == m[c[0].id := w][id := v];
    }
  }

  /** In a cart with distinct ids, mapping an id's lines rewrites just the one line at its index. */
  lemma MapQuantitySingle(c: Cart, id: string, g: Option<int> -> int)
    requires DistinctIds(c)
    ensures var k := FindIndex(c, id);
      MapQuantity(c, id, g) == if k == -1 then c else c[k := c[k].(quantity := Some(g(c[k].quantity)))]
  {
    var k := FindIndex(c, id);
    var r := MapQuantity(c, id, g);
    forall i | 0 <= i < |c|
      ensures r[i] == if k == -1 then c[i] else c[k := c[k].(quantity := Some(g(c[k].quantity)))][i]
    {
      MapQuantityAt(c, id, g, i);
    }
  }

  /** Replacing line k brings in only the new line and takes out only the old one. */
  lemma SetAtMembers(c: Cart, k: int, y: MenuItem)
    requires 0 <= k < |c|
    ensures forall x :: x in c[k := y] ==> x == y || x in c
    ensures forall x :: x in c && x != c[k] ==> x in c[k := y]
  {
    forall x | x in c[k := y] ensures x == y || x in c {
      var i :| 0 <= i < |c| && c[k := y][i] == x;
      if i != k { assert c[i] == x; }
    }
    forall x | x in c && x != c[k] ensures x in c[k := y] {
      var i :| 0 <= i < |c| && c[i] == x;
      assert c[k := y][i] == x;
    }
  }

  /** Line i of the cart with line k dropped. */
  lemma DropAt(c: Cart, k: int, i: int)
    requires 0 <= k < |c| && 0 <= i < |c| - 1
    ensures (c[..k] + c[k + 1..])[i] == c[if i < k then i else i + 1]
  {
  }

  /** Filtering out an id keeps the ids of a cart distinct, whatever its quantities. */
  lemma WithoutKeepsDistinct(c: Cart, id: string)
    requires DistinctIds(c)
    ensures DistinctIds(Without(c, id))
  {
    var k := FindIndex(c, id);
    if k == -1 {
      WithoutAbsent(c, id);
    } else {
      WithoutSingle(c, k);
      var r := c[..k] + c[k + 1..];
      forall i, j | 0 <= i < j < |r| ensures r[i].id != r[j].id {
        DropAt(c, k, i);
        DropAt(c, k, j);
      }
    }
  }

  /** Mapping the quantity of an id's lines leaves every id in place, so distinct ids stay distinct. */
  lemma MapQuantityKeepsDistinct(c: Cart, id: string, g: Option<int> -> int)
    requires DistinctIds(c)
    ensures DistinctIds(MapQuantity(c, id, g))
  {
    var r := MapQuantity(c, id, g);
    forall i, j | 0 <= i < j < |r| ensures r[i].id != r[j].id {
      MapQuantityAt(c, id, g, i);
      MapQuantityAt(c, id, g, j);
    }
  }

  lemma WithoutPreservesWellFormed(c: Cart, id: string)
    requires WellFormed(c)
    ensures WellFormed(Without(c, id)) && id !in Ids(Without(c, id))
  {
    WithoutMembers(c, id);
    var k := FindIndex(c, id);
    if k == -1 {
      WithoutAbsent(c, id);
    } else {
      WithoutSingle(c, k);
      var r := c[..k] + c[k + 1..];
      forall i, j | 0 <= i < j < |r| ensures r[i].id != r[j].id {
        DropAt(c, k, i);
        DropAt(c, k, j);
      }
      forall i | 0 <= i < |r| ensures r[i].quantity.Some? && r[i].quantity.value >= 1 {
        DropAt(c, k, i);
      }
    }
  }
}
