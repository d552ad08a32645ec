/**
 * Client code: concrete runs of the store that follow from the operations'
 * contracts alone, and the reload of a store from its own snapshot.
 */
module Scenarios {
  import opened LineItems
  import opened CartStore

  /** Empty cart, stock 5: product 1 is added with amount 1 and saved. */
  method AddToEmptyCart(info: ProductInfo) returns (outcome: Outcome, cart: seq<Product>, saved: Option<seq<Product>>)
    ensures outcome == Ok
    ensures cart == [Product(1, info, 1)]
    ensures saved == Some(cart)
  {
    var store := new Store(None);
    outcome := store.AddProduct(1, Some(5), Some(info));
    cart, saved := store.cart, store.persisted;
  }

  /** One unit of product 1 in the cart and a stock of 1: adding is refused. */
  method AddBeyondStock(info: ProductInfo) returns (outcome: Outcome, cart: seq<Product>, saved: Option<seq<Product>>)
    ensures outcome == OutOfStock
    ensures cart == [Product(1, info, 1)]
    ensures saved == Some([Product(1, info, 1)])
  {
    var store := new Store(Some([Product(1, info, 1)]));
    outcome := store.AddProduct(1, Some(1), None);
    cart, saved := store.cart, store.persisted;
  }

  /** Setting an amount of 0 is ignored without a notification. */
  method UpdateToZero(info: ProductInfo) returns (outcome: Outcome, cart: seq<Product>)
    ensures outcome == NoOp
    ensures cart == [Product(1, info, 3)]
  {
    var store := new Store(Some([Product(1, info, 3)]));
    outcome := store.UpdateProductAmount(1, 0, Some(10));
    cart := store.cart;
  }

  /** Removing the only line item leaves an empty cart, and saves it. */
  method RemoveLastItem(info: ProductInfo) returns (outcome: Outcome, cart: seq<Product>, saved: Option<seq<Product>>)
    ensures outcome == Ok
    ensures cart == []
    ensures saved == Some([])
  {
    var store := new Store(Some([Product(1, info, 2)]));
    outcome := store.RemoveProduct(1);
    cart, saved := store.cart, store.persisted;
  }

  /** Removing from an empty cart fails and changes nothing. */
  method RemoveFromEmptyCart() returns (outcome: Outcome, cart: seq<Product>, saved: Option<seq<Product>>)
    ensures outcome == RemoveFailed
    ensures cart == []
    ensures saved == None
  {
    var store := new Store(None);
    outcome := store.RemoveProduct(99);
    cart, saved := store.cart, store.persisted;
  }

  /** The stock request for product 2 is rejected: adding fails, nothing changes. */
  method AddWhenStockUnavailable(info: ProductInfo) returns (outcome: Outcome, cart: seq<Product>, saved: Option<seq<Product>>)
    ensures outcome == AddFailed
    ensures cart == []
    ensures saved == None
  {
    var store := new Store(None);
    outcome := store.AddProduct(2, None, Some(info));
    cart, saved := store.cart, store.persisted;
  }

  /** Updating an amount beyond the stock is reported even for a product not in the cart. */
  method UpdateAbsentBeyondStock() returns (outcome: Outcome)
    ensures outcome == OutOfStock
  {
    var store := new Store(None);
    outcome := store.UpdateProductAmount(7, 4, Some(3));
  }

  /**
   * A store started from the snapshot another store saved holds the same
   * cart: same identifiers, same amounts, same order.
   */
  method Reload(store: Store) returns (reloaded: Store)
    requires store.Valid()
    ensures reloaded.Valid()
    ensures reloaded.cart == store.cart
    ensures reloaded.persisted == store.persisted
  {
    reloaded := new Store(store.persisted);
  }
}
