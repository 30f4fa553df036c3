/**
 * The cart engine: the four mutations of the cart as functions on the list
 * of entries, what each of them does to the entries, the key set, the total
 * and the count, and the `Cart` object that applies them in place and saves
 * the list to the browser store.
 */
module CartEngine {
  import opened LineItems
  import opened BrowserStore

  /** The entry `addItem` appends for a product whose key is not in the cart yet. */
  function NewEntry(p: Product): LineItem
  {
    LineItem(p.id, p.name, p.size, p.price, 1)
  }

  /** `addItem(p)`: bump the first entry with the product's key, or append a new entry. */
  function WithAdded(items: seq<LineItem>, p: Product): seq<LineItem>
  {
    var i := FindIndex(items, p.id, p.size);
    if i >= 0 then items[i := items[i].(quantity := items[i].quantity + 1)]
    else items + [NewEntry(p)]
  }

  /** `increaseQuantity(id, size)`: bump the first matching entry; a miss changes nothing. */
  function WithIncreased(items: seq<LineItem>, id: string, size: string): seq<LineItem>
  {
    var i := FindIndex(items, id, size);
    if i >= 0 then items[i := items[i].(quantity := items[i].quantity + 1)]
    else items
  }

  /**
   * `decreaseQuantity(id, size)`: lower the first matching entry by one when
   * its quantity is above 1, otherwise splice it out; a miss changes nothing.
   */
  function WithDecreased(items: seq<LineItem>, id: string, size: string): seq<LineItem>
  {
    var i := FindIndex(items, id, size);
    if i < 0 then items
    else if items[i].quantity > 1 then items[i := items[i].(quantity := items[i].quantity - 1)]
    else items[..i] + items[i + 1..]
  }

  /** `removeItem(id, size)`: splice out the first matching entry; a miss changes nothing. */
  function WithRemoved(items: seq<LineItem>, id: string, size: string): seq<LineItem>
  {
    var i := FindIndex(items, id, size);
    if i >= 0 then items[..i] + items[i + 1..] else items
  }

  /** Raising one entry by a unit keeps the key set and both invariants. */
  lemma BumpKeeps(items: seq<LineItem>, i: int)
    requires 0 <= i < |items|
    ensures Keys(items[i := items[i].(quantity := items[i].quantity + 1)]) == Keys(items)
    ensures WellFormed(items) ==> WellFormed(items[i := items[i].(quantity := items[i].quantity + 1)])
  {
    var x := items[i].(quantity := items[i].quantity + 1);
    ReplaceKeys(items, i, x);
    var r := items[i := x];
    if PositiveQuantities(items) {
      forall j | 0 <= j < |r| ensures r[j].quantity >= 1 {
        assert items[j].quantity >= 1;
      }
    }
  }

  /** On a hit at `i`, `increaseQuantity` is the one-entry update at `i`. */
  lemma IncreaseHit(items: seq<LineItem>, id: string, size: string, i: int)
    requires 0 <= i < |items| && i == FindIndex(items, id, size)
    ensures WithIncreased(items, id, size) == items[i := items[i].(quantity := items[i].quantity + 1)]
  {
  }

  /**
   * Adding a product whose key is present raises that entry's quantity by
   * exactly 1 and keeps its name and price (the first-seen values) and every
   * other entry; adding a product whose key is absent appends one entry of
   * quantity 1 at the end. Either way the key set gains exactly the
   * product's key, and both invariants are kept.
   */
  lemma AddItemEffect(items: seq<LineItem>, p: Product)
    ensures Key(p.id, p.size) in Keys(items) ==>
      var i, r := FindIndex(items, p.id, p.size), WithAdded(items, p);
      && 0 <= i < |r| == |items|
      && KeyOf(r[i]) == Key(p.id, p.size)
      && r[i].quantity == items[i].quantity + 1
      && r[i].name == items[i].name && r[i].price == items[i].price
      && forall j :: 0 <= j < |items| && j != i ==> r[j] == items[j]
    ensures Key(p.id, p.size) !in Keys(items) ==> WithAdded(items, p) == items + [NewEntry(p)]
    ensures Keys(WithAdded(items, p)) == Keys(items) + {Key(p.id, p.size)}
    ensures WellFormed(items) ==> WellFormed(WithAdded(items, p))
  {
    var r := WithAdded(items, p);
    FindIndexFindsKey(items, p.id, p.size);
    var i := FindIndex(items, p.id, p.size);
    if i >= 0 {
      assert r == items[i := items[i].(quantity := items[i].quantity + 1)];
      BumpKeeps(items, i);
    } else {
      assert r == items + [NewEntry(p)];
      AppendKeys(items, NewEntry(p));
    }
  }

  /**
   * Increasing a present key raises only the first matching entry, by
   * exactly 1; an absent key leaves the cart as it is. The key set does not
   * change and both invariants are kept.
   */
  lemma IncreaseEffect(items: seq<LineItem>, id: string, size: string)
    ensures Key(id, size) in Keys(items) ==>
      var i, r := FindIndex(items, id, size), WithIncreased(items, id, size);
      && 0 <= i < |r| == |items|
      && Matches(items[i], id, size)
      && r[i] == items[i].(quantity := items[i].quantity + 1)
      && forall j :: 0 <= j < |items| && j != i ==> r[j] == items[j]
    ensures Key(id, size) !in Keys(items) ==> WithIncreased(items, id, size) == items
    ensures Keys(WithIncreased(items, id, size)) == Keys(items)
    ensures WellFormed(items) ==> WellFormed(WithIncreased(items, id, size))
  {
    FindIndexFindsKey(items, id, size);
    var i := FindIndex(items, id, size);
    if i >= 0 {
      IncreaseHit(items, id, size, i);
      BumpKeeps(items, i);
    }
  }

  /**
   * Decreasing a present key whose entry has quantity above 1 lowers it by
   * exactly 1 and changes nothing else; with quantity 1 the entry is spliced
   * out and the others keep their order; an absent key changes nothing. The
   * key set never grows: it stays the same or loses exactly that key.
   */
  lemma DecreaseEffect(items: seq<LineItem>, id: string, size: string)
    ensures Key(id, size) in Keys(items) ==>
      var i, r := FindIndex(items, id, size), WithDecreased(items, id, size);
      && 0 <= i < |items|
      && Matches(items[i], id, size)
      && (items[i].quantity > 1 ==>
            |r| == |items| && r[i] == items[i].(quantity := items[i].quantity - 1)
            && forall j :: 0 <= j < |items| && j != i ==> r[j] == items[j])
      && (items[i].quantity <= 1 ==> r == items[..i] + items[i + 1..])
    ensures Key(id, size) !in Keys(items) ==> WithDecreased(items, id, size) == items
    ensures Keys(WithDecreased(items, id, size)) <= Keys(items)
    ensures WellFormed(items) ==> WellFormed(WithDecreased(items, id, size))
    ensures WellFormed(items) ==>
      Keys(WithDecreased(items, id, size)) == Keys(items)
      || Keys(WithDecreased(items, id, size)) == Keys(items) - {Key(id, size)}
  {
    var r := WithDecreased(items, id, size);
    FindIndexFindsKey(items, id, size);
    var i := FindIndex(items, id, size);
    if i >= 0 {
      if items[i].quantity > 1 {
        assert r == items[i := items[i].(quantity := items[i].quantity - 1)];
        ReplaceKeys(items, i, items[i].(quantity := items[i].quantity - 1));
      } else {
        assert r == items[..i] + items[i + 1..];
        SpliceKeys(items, i);
      }
    } else {
      assert r == items;
    }
  }

  /**
   * Removing a present key splices out the first matching entry and keeps
   * the remaining entries in their original relative order; an absent key
   * changes nothing. In a cart with unique keys the key is gone afterwards.
   */
  lemma RemoveEffect(items: seq<LineItem>, id: string, size: string)
    ensures Key(id, size) in Keys(items) ==>
      var i := FindIndex(items, id, size);
      && 0 <= i < |items|
      && Matches(items[i], id, size)
      && WithRemoved(items, id, size) == items[..i] + items[i + 1..]
    ensures Key(id, size) !in Keys(items) ==> WithRemoved(items, id, size) == items
    ensures Keys(WithRemoved(items, id, size)) <= Keys(items)
    ensures WellFormed(items) ==> WellFormed(WithRemoved(items, id, size))
    ensures UniqueKeys(items) ==> Keys(WithRemoved(items, id, size)) == Keys(items) - {Key(id, size)}
  {
    var r := WithRemoved(items, id, size);
    FindIndexFindsKey(items, id, size);
    var i := FindIndex(items, id, size);
    if i >= 0 {
      assert r == items[..i] + items[i + 1..];
      SpliceKeys(items, i);
    } else {
      assert r == items;
    }
  }

  /**
   * Adding a product raises the count by 1 and the total by the unit price
   * of the entry it lands in: the stored first-seen price on a merge, the
   * product's price on an append.
   */
  lemma AddItemAggregates(items: seq<LineItem>, p: Product)
    ensures Count(WithAdded(items, p)) == Count(items) + 1
    ensures Total(WithAdded(items, p)) == Total(items) +
      (var i := FindIndex(items, p.id, p.size); if i >= 0 then items[i].price else p.price)
  {
    var i := FindIndex(items, p.id, p.size);
    if i >= 0 {
      assert WithAdded(items, p) == items[i := items[i].(quantity := items[i].quantity + 1)];
      IncrementAggregates(items, i);
    } else {
      assert WithAdded(items, p) == items + [NewEntry(p)];
      SumConcat(items, [NewEntry(p)], Amount);
      SumConcat(items, [NewEntry(p)], Quantity);
    }
  }

  /** Increasing a present key raises the count by 1 and the total by that entry's price. */
  lemma IncreaseAggregates(items: seq<LineItem>, id: string, size: string)
    requires Key(id, size) in Keys(items)
    ensures var i := FindIndex(items, id, size);
      && 0 <= i < |items|
      && Count(WithIncreased(items, id, size)) == Count(items) + 1
      && Total(WithIncreased(items, id, size)) == Total(items) + items[i].price
  {
    assert FindIndex(items, id, size) >= 0 by { FindIndexFindsKey(items, id, size); }
    var i := FindIndex(items, id, size);
    assert WithIncreased(items, id, size) == items[i := items[i].(quantity := items[i].quantity + 1)];
    IncrementAggregates(items, i);
  }

  /** `DecreaseAggregates` once the matching entry `i` is known to hold a unit. */
  lemma DecreaseAtAggregates(items: seq<LineItem>, id: string, size: string, i: int)
    requires 0 <= i < |items| && i == FindIndex(items, id, size) && items[i].quantity >= 1
    ensures Count(WithDecreased(items, id, size)) == Count(items) - 1
    ensures Total(WithDecreased(items, id, size)) == Total(items) - items[i].price
  {
    var r := WithDecreased(items, id, size);
    if items[i].quantity > 1 {
      DecrementAggregates(items, i);
      assert r == items[i := items[i].(quantity := items[i].quantity - 1)];
    } else {
      RemoveAtAggregates(items, i);
      assert r == items[..i] + items[i + 1..];
    }
  }

  /**
   * Decreasing a present key whose entry holds at least one unit lowers
   * the count by exactly 1 and the total by that entry's price.
   */
  lemma DecreaseAggregates(items: seq<LineItem>, id: string, size: string)
    requires Key(id, size) in Keys(items)
    requires PositiveQuantities(items)
    ensures var i := FindIndex(items, id, size);
      && 0 <= i < |items|
      && Count(WithDecreased(items, id, size)) == Count(items) - 1
      && Total(WithDecreased(items, id, size)) == Total(items) - items[i].price
  {
    assert FindIndex(items, id, size) >= 0 by { FindIndexFindsKey(items, id, size); }
    var i := FindIndex(items, id, size);
    assert items[i].quantity >= 1;
    DecreaseAtAggregates(items, id, size, i);
  }

  /** Removing a present key lowers the count by that entry's quantity and the total by its amount. */
  lemma RemoveAggregates(items: seq<LineItem>, id: string, size: string)
    requires Key(id, size) in Keys(items)
    ensures var i := FindIndex(items, id, size);
      && 0 <= i < |items|
      && Count(WithRemoved(items, id, size)) == Count(items) - items[i].quantity
      && Total(WithRemoved(items, id, size)) == Total(items) - items[i].price * items[i].quantity
  {
    assert FindIndex(items, id, size) >= 0 by { FindIndexFindsKey(items, id, size); }
    var i := FindIndex(items, id, size);
    assert WithRemoved(items, id, size) == items[..i] + items[i + 1..];
    RemoveAtAggregates(items, i);
  }

  /** A run of `addItem` calls, in order. */
  function AddAll(items: seq<LineItem>, ps: seq<Product>): seq<LineItem>
    decreases ps
  {
    if ps == [] then items else AddAll(WithAdded(items, ps[0]), ps[1..])
  }

  /** Adding a product whose key only the last entry holds raises that entry by one. */
  lemma AddToLast(base: seq<LineItem>, e: LineItem, p: Product)
    requires KeyOf(e) !in Keys(base)
    requires Key(p.id, p.size) == KeyOf(e)
    ensures WithAdded(base + [e], p) == base + [e.(quantity := e.quantity + 1)]
  {
    var items := base + [e];
    assert Matches(items[|base|], p.id, p.size);
    forall j | 0 <= j < |base| ensures !Matches(items[j], p.id, p.size) {
      assert items[j] == base[j] && KeyOf(base[j]) in Keys(base);
    }
    assert FindIndex(items, p.id, p.size) == |base|;
  }

  /**
   * Once the last entry holds key `k` and no earlier entry does, further
   * adds of products with key `k` only raise that entry's quantity.
   */
  lemma {:induction false} AddAllToLast(base: seq<LineItem>, e: LineItem, ps: seq<Product>)
    requires KeyOf(e) !in Keys(base)
    requires forall j :: 0 <= j < |ps| ==> Key(ps[j].id, ps[j].size) == KeyOf(e)
    ensures AddAll(base + [e], ps) == base + [e.(quantity := e.quantity + |ps|)]
    decreases ps
  {
    if ps != [] {
      var e' := e.(quantity := e.quantity + 1);
      AddToLast(base, e, ps[0]);
      assert AddAll(base + [e], ps) == AddAll(base + [e'], ps[1..]);
      assert KeyOf(e') == KeyOf(e);
      AddAllToLast(base, e', ps[1..]);
      assert e'.(quantity := e'.quantity + |ps[1..]|) == e.(quantity := e.quantity + |ps|);
    }
  }

  /**
   * Starting from a cart without key `k`, `n` >= 1 calls of `addItem` with
   * products of key `k` leave the cart followed by exactly one new entry for
   * `k`, whose quantity is `n` and whose name and price come from the first call.
   */
  lemma RepeatedAdds(items: seq<LineItem>, ps: seq<Product>, k: Key)
    requires k !in Keys(items)
    requires |ps| >= 1
    requires forall j :: 0 <= j < |ps| ==> Key(ps[j].id, ps[j].size) == k
    ensures AddAll(items, ps) == items + [LineItem(k.id, ps[0].name, k.size, ps[0].price, |ps|)]
  {
    AddItemEffect(items, ps[0]);
    AddAllToLast(items, NewEntry(ps[0]), ps[1..]);
  }

  /**
   * The cart object: its list of entries and the store it saves to. Each
   * mutation changes the list in place and then saves the whole list under
   * the `cart` key; a lookup miss neither changes the list nor saves.
   */
  class Cart {
    var items: seq<LineItem>
    const store: Store

    /** Unique keys and positive quantities. */
    ghost predicate Valid()
      reads this
    {
      WellFormed(items)
    }

    /** Loads the list saved under `cart`, the empty list when the key is absent. */
    constructor (store: Store)
      ensures this.store == store && items == store.cart
      ensures WellFormed(store.cart) ==> Valid()
    {
      this.store := store;
      items := store.cart;
    }

    /** Writes the whole list under the `cart` key. */
    method Save()
      modifies store
      ensures store.cart == items && store.orders == old(store.orders)
    {
      store.cart := items;
    }

    method AddItem(p: Product)
      modifies this, store
      ensures items == WithAdded(old(items), p)
      ensures store.cart == items && store.orders == old(store.orders)
      ensures old(Valid()) ==> Valid()
    {
      AddItemEffect(items, p);
      var i := FindIndex(items, p.id, p.size);
      if i != -1 {
        var existing := items[i];
        items := items[i := existing.(quantity := existing.quantity + 1)];
      } else {
        items := items + [NewEntry(p)];
      }
      Save();
    }

    method IncreaseQuantity(id: string, size: string)
      modifies this, store
      ensures items == WithIncreased(old(items), id, size)
      ensures Key(id, size) in Keys(old(items)) ==> store.cart == items
      ensures Key(id, size) !in Keys(old(items)) ==> store.cart == old(store.cart)
      ensures store.orders == old(store.orders)
      ensures old(Valid()) ==> Valid()
    {
      IncreaseEffect(items, id, size);
      FindIndexFindsKey(items, id, size);
      var i := FindIndex(items, id, size);
      if i != -1 {
        var item := items[i];
        items := items[i := item.(quantity := item.quantity + 1)];
        Save();
      }
    }

    method DecreaseQuantity(id: string, size: string)
      modifies this, store
      ensures items == WithDecreased(old(items), id, size)
      ensures Key(id, size) in Keys(old(items)) ==> store.cart == items
      ensures Key(id, size) !in Keys(old(items)) ==> store.cart == old(store.cart)
      ensures store.orders == old(store.orders)
      ensures old(Valid()) ==> Valid()
    {
      DecreaseEffect(items, id, size);
      FindIndexFindsKey(items, id, size);
      var index := FindIndex(items, id, size);
      if index != -1 {
        var item := items[index];
        if item.quantity > 1 {
          items := items[index := item.(quantity := item.quantity - 1)];
        } else {
          items := items[..index] + items[index + 1..];
        }
        Save();
      }
    }

    method RemoveItem(id: string, size: string)
      modifies this, store
      ensures items == WithRemoved(old(items), id, size)
      ensures Key(id, size) in Keys(old(items)) ==> store.cart == items
      ensures Key(id, size) !in Keys(old(items)) ==> store.cart == old(store.cart)
      ensures store.orders == old(store.orders)
      ensures old(Valid()) ==> Valid()
    {
      RemoveEffect(items, id, size);
      FindIndexFindsKey(items, id, size);
      var index := FindIndex(items, id, size);
      if index != -1 {
        items := items[..index] + items[index + 1..];
        Save();
      }
    }

    /** `getTotal`: the sum of price times quantity over the entries, 0 when empty. */
    function GetTotal(): (t: int)
      reads this
      ensures t == Sum(items, Amount)
      ensures items == [] ==> t == 0
    {
      Total(items)
    }

    /** `getCount`: the sum of the quantities, 0 exactly when a valid cart is empty. */
    function GetCount(): (n: int)
      reads this
      ensures n == Sum(items, Quantity)
      ensures Valid() ==> n >= |items| && (n == 0 <==> items == [])
    {
      CountBounds(items);
      Count(items)
    }
  }
}
