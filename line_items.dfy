/**
 * Line items of the shopping cart, as values, and the operations on a
 * sequence of them that the cart store is built from: the lookup that
 * `Array.prototype.find` performs, the quantity already in the cart, and
 * the `filter` that drops a product.
 */
module LineItems {

  datatype Option<+T> = None | Some(value: T)

  /** The display attributes fetched from the catalog; opaque to the cart. */
  datatype ProductInfo = ProductInfo(title: string, price: real, image: string)

  /** One line item: a product identifier, its display data and its quantity. */
  datatype Product = Product(id: int, info: ProductInfo, amount: int)

  /** At most one line item per product identifier. */
  predicate UniqueIds(items: seq<Product>)
  {
    forall i, j :: 0 <= i < j < |items| ==> items[i].id != items[j].id
  }

  /** Every line item in the cart has a quantity of at least one. */
  predicate PositiveAmounts(items: seq<Product>)
  {
    forall i :: 0 <= i < |items| ==> items[i].amount >= 1
  }

  /** The invariant every reachable cart satisfies. */
  predicate WellFormed(items: seq<Product>)
  {
    UniqueIds(items) && PositiveAmounts(items)
  }

  /** The position of the first line item with identifier `id`, if any. */
  function IndexOf(items: seq<Product>, id: int): (r: Option<nat>)
    ensures r.Some? ==> r.value < |items| && items[r.value].id == id
    ensures r.Some? ==> forall j :: 0 <= j < r.value ==> items[j].id != id
    ensures r.None? ==> forall j :: 0 <= j < |items| ==> items[j].id != id
  {
    if items == [] then None
    else if items[0].id == id then Some(0)
    else match IndexOf(items[1..], id)
      case None => None
      case Some(k) => Some(k + 1)
  }

  /** The first match is the only position `IndexOf` can report. */
  lemma IndexOfAt(items: seq<Product>, id: int, k: nat)
    requires k < |items| && items[k].id == id
    requires forall j :: 0 <= j < k ==> items[j].id != id
    ensures IndexOf(items, id) == Some(k)
  {
  }

  predicate Contains(items: seq<Product>, id: int)
  {
    IndexOf(items, id).Some?
  }

  /**
   * `Array.prototype.find` by product identifier: scans the cart from the
   * front and stops at the first match.
   */
  method FindIndex(items: seq<Product>, id: int) returns (found: Option<nat>)
    ensures found == IndexOf(items, id)
  {
    var i := 0;
    while i < |items|
      invariant 0 <= i <= |items|
      invariant forall j :: 0 <= j < i ==> items[j].id != id
    {
      if items[i].id == id {
        return Some(i);
      }
      i := i + 1;
    }
    return None;
  }

  /**
   * The quantity of `id` already in the cart: the amount of the line item
   * found, or 0 when there is none.
   */
  function Quantity(items: seq<Product>, id: int): (n: int)
    ensures PositiveAmounts(items) ==> n >= 0
    ensures PositiveAmounts(items) ==> (n == 0 <==> !Contains(items, id))
  {
    match IndexOf(items, id)
    case None => 0
    case Some(k) => items[k].amount
  }

  /** The cart with every line item of identifier `id` filtered out. */
  function Without(items: seq<Product>, id: int): (r: seq<Product>)
    ensures |r| <= |items|
    ensures forall p :: p in r <==> p in items && p.id != id
  {
    if items == [] then []
    else if items[0].id == id then Without(items[1..], id)
    else [items[0]] + Without(items[1..], id)
  }

  /** Filtering out an identifier the cart does not hold changes nothing. */
  lemma {:induction false} WithoutAbsent(items: seq<Product>, id: int)
    requires !Contains(items, id)
    ensures Without(items, id) == items
  {
    if items != [] {
      assert IndexOf(items[1..], id).None?;
      WithoutAbsent(items[1..], id);
    }
  }

  /**
   * In a cart with unique identifiers, the filter removes exactly the one
   * matching line item and keeps all others in their original order.
   */
  lemma {:induction false} WithoutRemovesAt(items: seq<Product>, id: int)
    requires UniqueIds(items)
    requires Contains(items, id)
    ensures var k := IndexOf(items, id).value;
      Without(items, id) == items[..k] + items[k + 1..]
  {
    var k := IndexOf(items, id).value;
    var rest := items[1..];
    assert UniqueIds(rest) by {
      forall i, j | 0 <= i < j < |rest| ensures rest[i].id != rest[j].id {
        assert rest[i] == items[i + 1] && rest[j] == items[j + 1];
      }
    }
    if k == 0 {
      assert !Contains(rest, id) by {
        forall j | 0 <= j < |rest| ensures rest[j].id != id {
          assert rest[j] == items[j + 1];
        }
      }
      WithoutAbsent(rest, id);
    } else {
      assert IndexOf(rest, id) == Some(k - 1);
      WithoutRemovesAt(rest, id);
      assert items[..k] == [items[0]] + rest[..k - 1];
      assert items[k + 1..] == rest[k..];
    }
  }

  /** The filter keeps the cart invariant. */
  lemma {:induction false} WithoutWellFormed(items: seq<Product>, id: int)
    requires WellFormed(items)
    ensures WellFormed(Without(items, id))
  {
    var r := Without(items, id);
    assert PositiveAmounts(r) by {
      forall i | 0 <= i < |r| ensures r[i].amount >= 1 {
        assert r[i] in items;
      }
    }
    if items != [] {
      var rest := items[1..];
      assert WellFormed(rest) by {
        forall i, j | 0 <= i < j < |rest| ensures rest[i].id != rest[j].id {
          assert rest[i] == items[i + 1] && rest[j] == items[j + 1];
        }
      }
      WithoutWellFormed(rest, id);
      if items[0].id != id {
        var tail := Without(rest, id);
        assert r == [items[0]] + tail;
        forall i, j | 0 <= i < j < |r| ensures r[i].id != r[j].id {
          if i == 0 {
            assert r[j] == tail[j - 1] && r[j] in rest;
            var m :| 0 <= m < |rest| && rest[m] == r[j];
            assert rest[m] == items[m + 1];
          } else {
            assert r[i] == tail[i - 1] && r[j] == tail[j - 1];
          }
        }
      }
    }
  }

  /**
   * Removing a product that was just appended to a cart that did not hold
   * it gives back the cart as it was.
   */
  lemma {:induction false} WithoutUndoesAppend(items: seq<Product>, p: Product)
    requires !Contains(items, p.id)
    ensures Without(items + [p], p.id) == items
  {
    if items == [] {
      assert [p][1..] == [];
    } else {
      assert (items + [p])[1..] == items[1..] + [p];
      assert IndexOf(items[1..], p.id).None?;
      WithoutUndoesAppend(items[1..], p);
    }
  }
}
