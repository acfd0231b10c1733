# Shopping-cart provider, modelled in Dafny

The storefront keeps the shopper's cart in a provider (`CartProvider` in
`src/hooks/useCart.tsx`). The provider holds a list of line items. Each item
is a product record (id, title, price, image) plus a quantity `amount`. Three
operations change the list:

- `addProduct(productId)` reads the product record and the stock record. It
  appends a new item with quantity 1, or it raises the quantity of the item
  already there.
- `removeProduct(productId)` filters the product out of the list.
- `updateProductAmount({productId, amount})` reads the stock record. It
  checks the requested quantity and then sets it.

Every failure shows a notification and leaves the cart as it was.

The project has two modules:

- `CartLogic` (`cart_logic.dfy`) holds the data model. It has each operation
  as a pure function from the current cart, the arguments and the lookup
  answers to an `Outcome`: `Ok(newCart)` or `Err(tag)`. The tags are
  `StockExceeded`, `InvalidAmount`, `NotFound` and `LookupFailure`, one per
  notification. The module also holds the lemmas about the operations.
- `CartState` (`cart_provider.dfy`) holds the class `CartProvider`. Its field
  `cart: seq<Item>` is the provider's state. Each method computes the outcome
  with `CartLogic` and installs the new cart only on success. It returns the
  error tag that the source shows as a notification.

The remote lookups are inputs of type `Option`. `None` means that the request
failed. The start-up value read from storage is an input too.

Behaviour worth knowing about:

- The guard on a repeated add is `current amount > stock`, not
  `current amount + 1 > stock`. A cart holding product 7 at quantity 5, with
  stock 5, therefore accepts one more add, and the quantity becomes 6. A
  guard of `current amount + 1 > stock` would refuse this add; the code's
  guard does not (`AddCanExceedStock`, `ScenarioAddAtStock`).
- A first add appends the product record that the lookup returned, so the new
  item's id is the record's id, not the argument. The at-most-one-item-per-id
  invariant is kept only when the lookup answers with the requested product
  (`AddPreservesWellFormed`, `AddWithForeignRecordDuplicates`).
- The guard uses the first matching item, but the increment and the update
  touch every item with that id. In a cart with unique ids these are the same
  item.
- A failed stock lookup in `updateProductAmount` shows the same message as an
  invalid quantity. The model keeps the two apart as `LookupFailure` and
  `InvalidAmount`.

## Model

| member | source | states |
|---|---|---|
| CartLogic.Find | src/hooks/useCart.tsx:37 | the index returned is the first item carrying the id; it returns nothing exactly when no item carries the id |
| CartLogic.AddProduct | src/hooks/useCart.tsx:35-71 | a failed product or stock lookup gives LookupFailure; an absent id appends the product record with amount 1, growing the cart by one and keeping the old items, with no stock check; for a present id, first item amount > stock gives StockExceeded, otherwise every item with that id gains 1 and every other item, the order and the length stay the same; no other error occurs |
| CartLogic.RemoveProduct | src/hooks/useCart.tsx:73-86 | NotFound exactly when the id is absent, and no other error; on success no item carries the id, the result holds exactly the items of the input whose id differs, and it is the filter `Without` of the input, so WithoutConcat's order statement applies |
| CartLogic.UpdateProductAmount | src/hooks/useCart.tsx:88-121 | a failed stock lookup gives LookupFailure; amount < 1 gives InvalidAmount, even when it also exceeds the stock; 1 <= amount > stock gives StockExceeded; 1 <= amount <= stock sets the amount of items with that id and changes nothing else, keeping length and order; an absent id leaves the cart unchanged with no error |
| CartLogic.WithoutMembers | src/hooks/useCart.tsx:81 | an item survives the filter exactly when it was in the cart and its id differs |
| CartLogic.WithoutConcat | src/hooks/useCart.tsx:81 | filtering a concatenation is the concatenation of the filtered parts, so the rest keeps its relative order |
| CartLogic.WithoutAbsent | src/hooks/useCart.tsx:81 | a cart without the id passes the filter unchanged |
| CartLogic.RemoveCutsOne | src/hooks/useCart.tsx:75-81 | in a cart with unique ids, removing the item at position k yields the cart with exactly that item cut out and the rest in order |
| CartLogic.RemovePreservesWellFormed | src/hooks/useCart.tsx:81 | removing keeps unique ids and positive amounts |
| CartLogic.AddIncrementsOnlyThatItem | src/hooks/useCart.tsx:51-64 | with unique ids and the item's amount <= stock, an add raises that item by exactly 1 and leaves every other item and the length unchanged |
| CartLogic.AddCanExceedStock | src/hooks/useCart.tsx:51 | an item already at the stock level is still raised, to stock + 1 |
| CartLogic.AddPreservesWellFormed | src/hooks/useCart.tsx:37-64 | when the product lookup answers with the requested id, adding keeps unique ids and positive amounts |
| CartLogic.AddWithForeignRecordDuplicates | src/hooks/useCart.tsx:42-45 | if the product lookup answers with a record of another id already in the cart, a first add creates a duplicate id |
| CartLogic.UpdateIdempotent | src/hooks/useCart.tsx:106-114 | applying a successful update a second time with the same amount and stock gives the same cart |
| CartLogic.UpdateSetsOnlyThatItem | src/hooks/useCart.tsx:100-114 | with unique ids and 1 <= amount <= stock, the item at position k gets exactly that amount and every other item stays the same |
| CartLogic.UpdatePreservesWellFormed | src/hooks/useCart.tsx:95-114 | a successful update keeps unique ids and positive amounts |
| CartLogic.ScenarioFirstAdd | src/hooks/useCart.tsx:41-48 | empty cart, product 7, stock 5: the result is the single item 7 with amount 1 |
| CartLogic.ScenarioAddAtStock | src/hooks/useCart.tsx:51-64 | item 7 at amount 5, stock 5: the add succeeds and the amount becomes 6 |
| CartLogic.ScenarioUpdateToZero | src/hooks/useCart.tsx:95-98 | item 3 at amount 2, update to 0: InvalidAmount |
| CartState.CartProvider.constructor | src/hooks/useCart.tsx:25-33 | the initial cart is the saved cart when one is saved, otherwise empty |
| CartState.CartProvider.AddProduct | src/hooks/useCart.tsx:35-71 | the cart becomes the new cart on success, is unchanged on error, and the error returned is the tag of the failure; the cart invariant is kept when the lookup answers with the requested id |
| CartState.CartProvider.RemoveProduct | src/hooks/useCart.tsx:73-86 | NotFound exactly when the id was absent, with the cart unchanged; otherwise the cart no longer holds the id; the cart invariant is kept |
| CartState.CartProvider.UpdateProductAmount | src/hooks/useCart.tsx:88-121 | the cart becomes the updated cart on success, is unchanged on error; the length is kept; the cart invariant is kept |

## Left out

- React plumbing (context, `useState`, `useContext`, JSX, the `useCart` hook, src/hooks/useCart.tsx:1-24, 123-136): framework glue. The `useState` initialiser at lines 25-33 is modelled by the constructor. The class field stands for the `cart` state, and a method's assignment stands for `setCart`.
- The HTTP requests to `/products/{id}` and `/stock/{id}`: network I/O. Their answers are parameters, and `None` stands for a failed request.
- The toast notifications: a user-interface side effect. Each one is the returned error tag.
- Persistence to localStorage and JSON encoding: browser I/O and a foreign serialiser. The constructor takes the saved cart already decoded. A save/load round trip is not claimed. After each `setCart` the code writes the cart as it was before the operation, not the new cart.
- A `JSON.parse` failure at start-up, and a `localStorage.setItem` failure after `setCart` has already been called: both throw inside browser code that is not modelled. In the second case the source shows the error notification although the new cart is installed.
- Races between overlapping asynchronous operations. Each operation captures the `cart` of its render, so a later operation can overwrite an earlier one's result. This comes from the scheduler, not from the list logic. The model runs operations one after another.
- Number representation: ids, quantities and stock are unbounded integers. The source's JavaScript numbers could be fractional or not a number.
- The `Product` type in src/types is not part of this model. The display fields are taken to be title, price and image.
