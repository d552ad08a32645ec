/**
 * The cart store: the in-memory cart and the snapshot kept in browser
 * storage, with the three operations the storefront calls.
 *
 * The two remote reads become parameters: `stock` is the answer of the
 * stock service (None when the request is rejected) and `catalog` the
 * answer of the catalog service (None when that request is rejected).
 * Each operation returns the notification it would show as an `Outcome`;
 * `Ok` and `NoOp` stand for "no notification".
 */
module CartStore {
  import opened LineItems

  datatype Outcome = Ok | OutOfStock | AddFailed | RemoveFailed | UpdateFailed | NoOp

  class Store {
    /** The cart the storefront renders. */
    var cart: seq<Product>
    /** The storage slot: None until the first successful operation writes it. */
    var persisted: Option<seq<Product>>

    /**
     * The cart is well formed, and the storage slot holds exactly the cart
     * (or has never been written and the cart is empty).
     */
    predicate Valid()
      reads this
    {
      && WellFormed(cart)
      && (persisted == Some(cart) || (persisted == None && cart == []))
    }

    /**
     * Starts from the stored snapshot when there is one, else from an empty
     * cart. The snapshot is trusted as it is, so it must already be well
     * formed.
     */
    constructor (stored: Option<seq<Product>>)
      requires stored.Some? ==> WellFormed(stored.value)
      ensures Valid()
      ensures cart == (if stored.Some? then stored.value else [])
      ensures persisted == stored
    {
      cart := if stored.Some? then stored.value else [];
      persisted := stored;
    }

    /**
     * Adds one unit of `productId`: raises the amount of its line item, or
     * appends a new line item with amount 1, unless the stock does not
     * allow it or a remote read fails.
     */
    method AddProduct(productId: int, stock: Option<int>, catalog: Option<ProductInfo>)
      returns (outcome: Outcome)
      requires Valid()
      modifies this
      ensures Valid()
      ensures stock.None? ==> outcome == AddFailed
      ensures stock.Some? && Quantity(old(cart), productId) + 1 > stock.value ==> outcome == OutOfStock
      ensures stock.Some? && Quantity(old(cart), productId) + 1 <= stock.value ==>
        outcome == (if Contains(old(cart), productId) || catalog.Some? then Ok else AddFailed)
      ensures outcome != Ok ==> cart == old(cart) && persisted == old(persisted)
      ensures outcome == Ok ==> persisted == Some(cart)
      ensures outcome == Ok ==> Quantity(cart, productId) == Quantity(old(cart), productId) + 1
      ensures outcome == Ok && Contains(old(cart), productId) ==>
        var k := IndexOf(old(cart), productId).value;
        && |cart| == |old(cart)|
        && cart[k] == old(cart)[k].(amount := old(cart)[k].amount + 1)
        && forall j :: 0 <= j < |cart| && j != k ==> cart[j] == old(cart)[j]
      ensures outcome == Ok && !Contains(old(cart), productId) ==>
        cart == old(cart) + [Product(productId, catalog.value, 1)]
    {
      var updated := cart;
      var found := FindIndex(updated, productId);
      if stock.None? {
        return AddFailed;
      }
      var current := if found.Some? then updated[found.value].amount else 0;
      var amount := current + 1;
      if amount > stock.value {
        return OutOfStock;
      }
      if found.Some? {
        var k := found.value;
        updated := updated[k := updated[k].(amount := amount)];
        IndexOfAt(updated, productId, k);
      } else {
        if catalog.None? {
          return AddFailed;
        }
        updated := updated + [Product(productId, catalog.value, 1)];
        IndexOfAt(updated, productId, |cart|);
      }
      cart := updated;
      persisted := Some(updated);
      outcome := Ok;
    }

    /**
     * Drops the line item of `productId`, keeping the others in order; fails
     * without any change when the cart does not hold it.
     */
    method RemoveProduct(productId: int) returns (outcome: Outcome)
      requires Valid()
      modifies this
      ensures Valid()
      ensures outcome == (if Contains(old(cart), productId) then Ok else RemoveFailed)
      ensures outcome != Ok ==> cart == old(cart) && persisted == old(persisted)
      ensures outcome == Ok ==> persisted == Some(cart)
      ensures outcome == Ok ==>
        var k := IndexOf(old(cart), productId).value;
        cart == old(cart)[..k] + old(cart)[k + 1..]
      ensures !Contains(cart, productId)
    {
      var found := FindIndex(cart, productId);
      if found.None? {
        return RemoveFailed;
      }
      var updated := Without(cart, productId);
      WithoutRemovesAt(cart, productId);
      WithoutWellFormed(cart, productId);
      cart := updated;
      persisted := Some(updated);
      outcome := Ok;
    }

    /**
     * Sets the amount of `productId`'s line item to `amount`. A non-positive
     * amount is ignored silently; the stock is checked before the cart is
     * searched, so an out-of-stock amount is reported even for a product the
     * cart does not hold.
     */
    method UpdateProductAmount(productId: int, amount: int, stock: Option<int>)
      returns (outcome: Outcome)
      requires Valid()
      modifies this
      ensures Valid()
      ensures amount <= 0 ==> outcome == NoOp
      ensures amount > 0 && stock.None? ==> outcome == UpdateFailed
      ensures amount > 0 && stock.Some? && amount > stock.value ==> outcome == OutOfStock
      ensures amount > 0 && stock.Some? && amount <= stock.value ==>
        outcome == (if Contains(old(cart), productId) then Ok else UpdateFailed)
      ensures outcome != Ok ==> cart == old(cart) && persisted == old(persisted)
      ensures outcome == Ok ==> persisted == Some(cart)
      ensures outcome == Ok ==> Quantity(cart, productId) == amount
      ensures outcome == Ok ==>
        var k := IndexOf(old(cart), productId).value;
        && |cart| == |old(cart)|
        && cart[k] == old(cart)[k].(amount := amount)
        && forall j :: 0 <= j < |cart| && j != k ==> cart[j] == old(cart)[j]
      ensures amount == Quantity(old(cart), productId) ==> cart == old(cart)
    {
      if amount <= 0 {
        return NoOp;
      }
      if stock.None? {
        return UpdateFailed;
      }
      if amount > stock.value {
        return OutOfStock;
      }
      var updated := cart;
      var found := FindIndex(updated, productId);
      if found.Some? {
        var k := found.value;
        updated := updated[k := updated[k].(amount := amount)];
        IndexOfAt(updated, productId, k);
        cart := updated;
        persisted := Some(updated);
        outcome := Ok;
      } else {
        outcome := UpdateFailed;
      }
    }
  }
}
