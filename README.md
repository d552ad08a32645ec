# Shopping-cart store, modelled in Dafny

This project models the cart store of a storefront front end. The store is
the `CartProvider` hook in `src/hooks/useCart.tsx`. It keeps an ordered list
of line items. Each line item is a product identifier, the product's display
data and an `amount`. The store offers three operations:

- `addProduct` adds one unit of a product, within the available stock.
- `removeProduct` drops a product's line item.
- `updateProductAmount` sets a line item's amount, within the available stock.

Every successful operation overwrites the storage slot `@RocketShoes:cart`
with the whole new cart.

The model has three modules:

- `LineItems` (`line_items.dfy`) holds the line-item values and the cart invariant. The invariant is: at most one line item per identifier, and every amount at least 1. The module also has the `find` lookup, which is a loop method proved against a recursive specification function, and the `filter` that removes a product, with lemmas about it.
- `CartStore` (`cart_store.dfy`) has the class `Store`. Its real fields are `cart` and `persisted`, the storage slot. It has a constructor and one method per operation. Each method returns the notification as an `Outcome` value and states the complete new state for every branch of the source.
- `Scenarios` (`scenarios.dfy`) has client methods. They run concrete cases from the operations' contracts alone, and also reload a store from the snapshot another store saved.

The two remote reads are method parameters:

- `stock: Option<int>` is the stock service's answer. `None` means the request was rejected.
- `catalog: Option<ProductInfo>` is the catalog service's answer. `None` means the request was rejected.

The notification sink is the returned `Outcome`:

- `OutOfStock` is "Quantidade solicitada fora de estoque".
- `AddFailed`, `RemoveFailed` and `UpdateFailed` are the three generic error messages.
- `Ok` and `NoOp` mean that no message is shown.

## Model

| member | source | states |
|---|---|---|
| `LineItems.IndexOf` | src/hooks/useCart.tsx:38 | the position found is the first line item with that identifier; when there is none, no line item has it |
| `LineItems.IndexOfAt` | src/hooks/useCart.tsx:38 | a position holding the identifier, with none before it, is exactly what the lookup reports |
| `LineItems.FindIndex` | src/hooks/useCart.tsx:38 | the scan from the front returns the first match, or nothing when the cart does not hold the identifier |
| `LineItems.Quantity` | src/hooks/useCart.tsx:42 | the quantity already in the cart is never negative, and is 0 exactly when the cart does not hold the product |
| `LineItems.Without` | src/hooks/useCart.tsx:75 | the filtered cart holds exactly the line items of the old cart whose identifier differs, and is no longer; that it keeps their order and multiplicity is proved, for carts with unique identifiers, by `WithoutRemovesAt` and `WithoutAbsent` |
| `LineItems.WithoutAbsent` | src/hooks/useCart.tsx:75 | filtering out an identifier the cart does not hold leaves the cart as it is |
| `LineItems.WithoutRemovesAt` | src/hooks/useCart.tsx:68-75 | in a cart with unique identifiers, the filter removes just the matching line item, and the others keep their order |
| `LineItems.WithoutWellFormed` | src/hooks/useCart.tsx:75 | the filter keeps identifiers unique and amounts at least 1 |
| `LineItems.WithoutUndoesAppend` | src/hooks/useCart.tsx:53-56 | removing a product just appended to a cart that did not hold it gives back the old cart |
| `CartStore.Store.constructor` | src/hooks/useCart.tsx:25-33 | the cart is the stored snapshot when there is one, else empty; the store's invariant holds |
| `CartStore.Store.AddProduct` | src/hooks/useCart.tsx:35-65 | a rejected stock read gives the add error. When (current amount or 0) + 1 exceeds the stock, it is out of stock. Otherwise a held product's amount rises by one with every other item and the order unchanged, or a new item with amount 1 and the fetched data is appended; with no catalog data it gives the add error. Failures leave cart and slot unchanged, success saves the new cart, and the invariant is kept |
| `CartStore.Store.RemoveProduct` | src/hooks/useCart.tsx:67-83 | succeeds exactly when the cart holds the product; then the new cart is the old one without that line item, in order, and is saved; otherwise the remove error, no change; afterwards the product is absent; invariant kept |
| `CartStore.Store.UpdateProductAmount` | src/hooks/useCart.tsx:85-114 | amount ≤ 0 is a silent no-op. A rejected stock read gives the update error. The stock is checked before the cart is searched, so out of stock is reported for absent products too. A held product's amount is set with every other item unchanged and saved; an absent one gives the update error with no change. Setting the current amount changes nothing. Invariant kept |
| `Scenarios.AddToEmptyCart` | src/hooks/useCart.tsx:51-61 | adding to an empty cart with stock 5 gives one line item with amount 1, saved |
| `Scenarios.AddBeyondStock` | src/hooks/useCart.tsx:42-49 | adding a second unit with a stock of 1 is out of stock and leaves the cart and the saved snapshot unchanged |
| `Scenarios.UpdateToZero` | src/hooks/useCart.tsx:90 | setting amount 0 is a no-op with no notification |
| `Scenarios.RemoveLastItem` | src/hooks/useCart.tsx:75-79 | removing the only line item leaves and saves an empty cart |
| `Scenarios.RemoveFromEmptyCart` | src/hooks/useCart.tsx:69-73 | removing from an empty cart gives the remove error and writes nothing |
| `Scenarios.AddWhenStockUnavailable` | src/hooks/useCart.tsx:40 | a rejected stock read gives the add error; the cart stays empty and the slot unwritten |
| `Scenarios.UpdateAbsentBeyondStock` | src/hooks/useCart.tsx:92-97 | an amount beyond stock is out of stock even for a product the cart does not hold |
| `Scenarios.Reload` | src/hooks/useCart.tsx:25-33 | a store started from another store's saved snapshot has the same cart and slot |

## Left out

- The React context, the provider component and the `useCart` hook (`src/hooks/useCart.tsx:22`, `116-129`) are framework plumbing with no behaviour of their own.
- The `stock/` and `products/` requests are remote I/O. Their answers or rejections are the `stock` and `catalog` parameters. The stock amount is taken to be an integer.
- Storage reads and writes and the JSON encoding are left out. The slot is the field `persisted`, which holds the cart value itself. An absent or empty slot is `None`: the source also starts from an empty cart when the slot holds the empty string. The constructor's argument stands for the parsed snapshot. The parsed value is trusted unchecked, so the constructor requires a well-formed snapshot.
- `toast.error` is an external notification sink. It becomes the returned `Outcome`.
- `CartStore.Store.AddProduct` gives the new line item the requested identifier. The source spreads the fetched product record, which carries its own `id`. The model assumes the catalog echoes the identifier it was asked for, so the product's display data is all that is taken from it. The shape of `Product` in `src/types` is not part of this model.
- Concurrency between calls is left out. The source captures `cart` when a call starts and awaits remote reads before writing, so overlapping calls can overwrite each other. Each operation here runs atomically on the current state.
- Aliasing is left out. `[...cart]` is a shallow copy, so assigning `amount` on the found line item also changes the previous state's object. Line items here are values. The new cart is the same either way.
- Exceptions raised by storage writes themselves, which the source's `catch` blocks would also turn into notifications, are left out.
- CartStore.Store.UpdateProductAmount: the requested amount and the product identifiers are taken to be integers. In the source they are JavaScript numbers, and the only guard on the requested amount is `amount <= 0`. So a fractional amount between 0 and 1, or NaN, passes that guard and the stock check and is stored below 1. The model's guard on an integer amount is the same as `amount < 1`, and this is why every stored amount stays at least 1 here.
