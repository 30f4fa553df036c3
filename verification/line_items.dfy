/**
 * Line items of the shopping cart, their identity key, the lookup the cart
 * uses to find an entry, the two cart invariants, and the folds behind the
 * cart total and the item count.
 */
module LineItems {

  /** One entry of the cart, as stored under the `cart` key. */
  datatype LineItem = LineItem(id: string, name: string, size: string, price: int, quantity: nat)

  /** What a menu card hands to the cart: a product in one size, at that size's price. */
  datatype Product = Product(id: string, name: string, size: string, price: int)

  /** The identity of an entry: product id and size together. */
  datatype Key = Key(id: string, size: string)

  function KeyOf(item: LineItem): Key
  {
    Key(item.id, item.size)
  }

  /** The lookup test of every cart operation: same id and same size. */
  predicate Matches(item: LineItem, id: string, size: string)
  {
    KeyOf(item) == Key(id, size)
  }

  /** The set of identity keys present in a cart. */
  function Keys(items: seq<LineItem>): set<Key>
  {
    set i | 0 <= i < |items| :: KeyOf(items[i])
  }

  /**
   * `findIndex` with the (id, size) test: the position of the first
   * matching entry, or -1 when there is none.
   */
  function FindIndex(items: seq<LineItem>, id: string, size: string): (r: int)
    ensures -1 <= r < |items|
    ensures r == -1 <==> forall j :: 0 <= j < |items| ==> !Matches(items[j], id, size)
    ensures r >= 0 ==> Matches(items[r], id, size)
    ensures r >= 0 ==> forall j :: 0 <= j < r ==> !Matches(items[j], id, size)
  {
    if items == [] then -1
    else if Matches(items[0], id, size) then 0
    else
      var k := FindIndex(items[1..], id, size);
      if k == -1 then -1 else k + 1
  }

  /** The lookup finds an entry exactly when the key is in the cart. */
  lemma FindIndexFindsKey(items: seq<LineItem>, id: string, size: string)
    ensures FindIndex(items, id, size) >= 0 <==> Key(id, size) in Keys(items)
  {
    var i := FindIndex(items, id, size);
    if i >= 0 {
      assert KeyOf(items[i]) in Keys(items);
    }
    if Key(id, size) in Keys(items) {
      var j :| 0 <= j < |items| && KeyOf(items[j]) == Key(id, size);
      assert Matches(items[j], id, size);
    }
  }

  /** At most one entry per identity key. */
  ghost predicate UniqueKeys(items: seq<LineItem>)
  {
    forall i, j :: 0 <= i < j < |items| ==> KeyOf(items[i]) != KeyOf(items[j])
  }

  /** No entry is stored with a quantity below 1. */
  ghost predicate PositiveQuantities(items: seq<LineItem>)
  {
    forall i :: 0 <= i < |items| ==> items[i].quantity >= 1
  }

  /** The two invariants every cart mutation keeps. */
  ghost predicate WellFormed(items: seq<LineItem>)
  {
    UniqueKeys(items) && PositiveQuantities(items)
  }

  /** In a cart with unique keys, the entry found for a key is the only one with that key. */
  lemma UniqueMatch(items: seq<LineItem>, id: string, size: string, j: int)
    requires UniqueKeys(items)
    requires 0 <= j < |items| && Matches(items[j], id, size)
    ensures FindIndex(items, id, size) == j
  {
    var i := FindIndex(items, id, size);
    assert 0 <= i <= j;
    assert KeyOf(items[i]) == KeyOf(items[j]);
  }

  /** Replacing an entry by one with the same key keeps the key set and key uniqueness. */
  lemma ReplaceKeys(items: seq<LineItem>, i: int, x: LineItem)
    requires 0 <= i < |items| && KeyOf(x) == KeyOf(items[i])
    ensures Keys(items[i := x]) == Keys(items)
    ensures UniqueKeys(items) ==> UniqueKeys(items[i := x])
  {
    var r := items[i := x];
    forall k | k in Keys(items) ensures k in Keys(r) {
      var j :| 0 <= j < |items| && KeyOf(items[j]) == k;
      assert KeyOf(r[j]) == k;
    }
  }

  /** Appending an entry adds its key; with a fresh key, keys stay unique. */
  lemma AppendKeys(items: seq<LineItem>, x: LineItem)
    ensures Keys(items + [x]) == Keys(items) + {KeyOf(x)}
    ensures UniqueKeys(items) && KeyOf(x) !in Keys(items) ==> UniqueKeys(items + [x])
  {
    var r := items + [x];
    assert KeyOf(r[|items|]) in Keys(r);
    forall k | k in Keys(items) ensures k in Keys(r) {
      var j :| 0 <= j < |items| && KeyOf(items[j]) == k;
      assert KeyOf(r[j]) == k;
    }
    if UniqueKeys(items) && KeyOf(x) !in Keys(items) {
      forall a, b | 0 <= a < b < |r| ensures KeyOf(r[a]) != KeyOf(r[b]) {
        if b == |items| {
          assert KeyOf(items[a]) in Keys(items);
        }
      }
    }
  }

  /**
   * Splicing out the entry at `i` keeps the other entries in order, never
   * adds a key, keeps both invariants, and with unique keys removes exactly
   * the key of that entry.
   */
  lemma SpliceKeys(items: seq<LineItem>, i: int)
    requires 0 <= i < |items|
    ensures Keys(items[..i] + items[i + 1..]) <= Keys(items)
    ensures PositiveQuantities(items) ==> PositiveQuantities(items[..i] + items[i + 1..])
    ensures UniqueKeys(items) ==> UniqueKeys(items[..i] + items[i + 1..])
    ensures UniqueKeys(items) ==> Keys(items[..i] + items[i + 1..]) == Keys(items) - {KeyOf(items[i])}
  {
    var r := items[..i] + items[i + 1..];
    assert forall a :: 0 <= a < |r| ==> r[a] == items[if a < i then a else a + 1];
    forall k | k in Keys(r) ensures k in Keys(items) {
      var a :| 0 <= a < |r| && KeyOf(r[a]) == k;
      assert KeyOf(items[if a < i then a else a + 1]) == k;
    }
    if UniqueKeys(items) {
      forall a, b | 0 <= a < b < |r| ensures KeyOf(r[a]) != KeyOf(r[b]) {
        var a', b' := if a < i then a else a + 1, if b < i then b else b + 1;
        assert a' < b' && r[a] == items[a'] && r[b] == items[b'];
      }
      forall k | k in Keys(r) ensures k != KeyOf(items[i]) {
        var a :| 0 <= a < |r| && KeyOf(r[a]) == k;
        var a' := if a < i then a else a + 1;
        assert r[a] == items[a'] && a' != i;
      }
      forall k | k in Keys(items) && k != KeyOf(items[i]) ensures k in Keys(r) {
        var j :| 0 <= j < |items| && KeyOf(items[j]) == k;
        var a := if j < i then j else j - 1;
        assert r[a] == items[j];
      }
    }
  }

  /** `reduce((sum, item) => sum + f(item), acc)`: a left fold from the first entry on. */
  function Reduce(items: seq<LineItem>, f: LineItem -> int, acc: int): int
  {
    if items == [] then acc else Reduce(items[1..], f, acc + f(items[0]))
  }

  /** The sum of `f` over all entries, the reference the folds are proved against. */
  function Sum(items: seq<LineItem>, f: LineItem -> int): int
  {
    if items == [] then 0 else f(items[0]) + Sum(items[1..], f)
  }

  lemma {:induction false} ReduceIsSum(items: seq<LineItem>, f: LineItem -> int, acc: int)
    ensures Reduce(items, f, acc) == acc + Sum(items, f)
  {
    if items != [] {
      ReduceIsSum(items[1..], f, acc + f(items[0]));
    }
  }

  lemma {:induction false} SumConcat(a: seq<LineItem>, b: seq<LineItem>, f: LineItem -> int)
    ensures Sum(a + b, f) == Sum(a, f) + Sum(b, f)
  {
    if a == [] {
      assert a + b == b;
    } else {
      assert (a + b)[1..] == a[1..] + b;
      SumConcat(a[1..], b, f);
    }
  }

  /** Replacing one entry changes the sum by the difference of the two entries. */
  lemma SumUpdate(items: seq<LineItem>, i: int, x: LineItem, f: LineItem -> int)
    requires 0 <= i < |items|
    ensures Sum(items[i := x], f) == Sum(items, f) - f(items[i]) + f(x)
  {
    var a, b := items[..i], items[i + 1..];
    assert items == a + ([items[i]] + b);
    assert items[i := x] == a + ([x] + b);
    assert ([items[i]] + b)[1..] == b && ([x] + b)[1..] == b;
    SumConcat(a, [items[i]] + b, f);
    SumConcat(a, [x] + b, f);
  }

  /** Splicing one entry out lowers the sum by that entry. */
  lemma {:induction false} SumRemove(items: seq<LineItem>, i: int, f: LineItem -> int)
    requires 0 <= i < |items|
    ensures Sum(items[..i] + items[i + 1..], f) == Sum(items, f) - f(items[i])
  {
    if i == 0 {
      assert items[..i] + items[i + 1..] == items[1..];
    } else {
      var r := items[..i] + items[i + 1..];
      SumRemove(items[1..], i - 1, f);
      assert r[0] == items[0];
      assert r[1..] == items[1..][..i - 1] + items[1..][i..];
    }
  }

  /** What one entry contributes to the total: unit price times quantity. */
  function Amount(item: LineItem): int
  {
    item.price * item.quantity
  }

  /** What one entry contributes to the item count. */
  function Quantity(item: LineItem): int
  {
    item.quantity
  }

  /** Raising entry `i` by one unit raises the count by 1 and the total by its price. */
  lemma IncrementAggregates(items: seq<LineItem>, i: int)
    requires 0 <= i < |items|
    ensures Count(items[i := items[i].(quantity := items[i].quantity + 1)]) == Count(items) + 1
    ensures Total(items[i := items[i].(quantity := items[i].quantity + 1)]) == Total(items) + items[i].price
  {
    var x := items[i].(quantity := items[i].quantity + 1);
    assert Amount(x) == Amount(items[i]) + items[i].price;
    SumUpdate(items, i, x, Amount);
    SumUpdate(items, i, x, Quantity);
  }

  /** Lowering entry `i` by one unit lowers the count by 1 and the total by its price. */
  lemma DecrementAggregates(items: seq<LineItem>, i: int)
    requires 0 <= i < |items| && items[i].quantity >= 1
    ensures Count(items[i := items[i].(quantity := items[i].quantity - 1)]) == Count(items) - 1
    ensures Total(items[i := items[i].(quantity := items[i].quantity - 1)]) == Total(items) - items[i].price
  {
    var x := items[i].(quantity := items[i].quantity - 1);
    assert Amount(x) == Amount(items[i]) - items[i].price;
    SumUpdate(items, i, x, Amount);
    SumUpdate(items, i, x, Quantity);
  }

  /** Splicing out entry `i` lowers the count by its quantity and the total by its amount. */
  lemma RemoveAtAggregates(items: seq<LineItem>, i: int)
    requires 0 <= i < |items|
    ensures Count(items[..i] + items[i + 1..]) == Count(items) - items[i].quantity
    ensures Total(items[..i] + items[i + 1..]) == Total(items) - items[i].price * items[i].quantity
  {
    SumRemove(items, i, Amount);
    SumRemove(items, i, Quantity);
  }

  /** `getTotal` and the checkout subtotal: the fold of price times quantity, starting at 0. */
  function Total(items: seq<LineItem>): (t: int)
    ensures t == Sum(items, Amount)
    ensures items == [] ==> t == 0
  {
    ReduceIsSum(items, Amount, 0);
    Reduce(items, Amount, 0)
  }

  /** `getCount`: the fold of the quantities, starting at 0. */
  function Count(items: seq<LineItem>): (n: int)
    ensures n == Sum(items, Quantity)
    ensures items == [] ==> n == 0
  {
    ReduceIsSum(items, Quantity, 0);
    Reduce(items, Quantity, 0)
  }

  /**
   * With every quantity at least 1, the count is at least the number of
   * entries, so it is 0 exactly when the cart is empty.
   */
  lemma {:induction false} CountBounds(items: seq<LineItem>)
    ensures PositiveQuantities(items) ==> Sum(items, Quantity) >= |items|
    ensures PositiveQuantities(items) ==> (Sum(items, Quantity) == 0 <==> items == [])
  {
    if items != [] {
      CountBounds(items[1..]);
    }
  }
}
