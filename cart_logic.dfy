/**
 The list logic of the shopping-cart provider: the three cart operations
 (add a product, remove a product, change a product's quantity) as pure
 functions from the current cart, the operation's arguments and the results
 of the remote lookups to either a new cart or an error tag.
 */
module CartLogic {

  datatype Option<T> = None | Some(value: T)

  /** A product record as the product lookup (`/products/{id}`) returns it. */
  datatype Product = Product(id: int, title: string, price: real, image: string)

  /** A line item of the cart: the product's fields spread out, plus a quantity. */
  datatype Item = Item(id: int, title: string, price: real, image: string, amount: int)

  /** A stock record as the stock lookup (`/stock/{id}`) returns it. */
  datatype Stock = Stock(id: int, amount: int)

  /** One tag per kind of error notification the provider shows. */
  datatype CartError = StockExceeded | InvalidAmount | NotFound | LookupFailure

  /** What an operation produces: the cart to install, or the error it reports. */
  datatype Outcome = Ok(cart: seq<Item>) | Err(error: CartError)

  /** Some line item of `cart` carries `id`. */
  predicate Has(cart: seq<Item>, id: int)
  {
    exists i :: 0 <= i < |cart| && cart[i].id == id
  }

  /** `k` is the position of the first line item carrying `id`. */
  predicate IsFirst(cart: seq<Item>, id: int, k: int)
  {
    0 <= k < |cart| && cart[k].id == id && forall j :: 0 <= j < k ==> cart[j].id != id
  }

  /** At most one line item per product id. */
  predicate UniqueIds(cart: seq<Item>)
  {
    forall i, j :: 0 <= i < |cart| && 0 <= j < |cart| && cart[i].id == cart[j].id ==> i == j
  }

  /** Every line item has a quantity of at least one. */
  predicate PositiveAmounts(cart: seq<Item>)
  {
    forall i :: 0 <= i < |cart| ==> cart[i].amount >= 1
  }

  /** The cart invariant the provider's operations are meant to keep. */
  predicate WellFormed(cart: seq<Item>)
  {
    UniqueIds(cart) && PositiveAmounts(cart)
  }

  /** The position of the first line item carrying `id`, as `Array.prototype.find` picks it. */
  function Find(cart: seq<Item>, id: int): (r: Option<nat>)
    ensures r.Some? ==> IsFirst(cart, id, r.value)
    ensures r.None? <==> !Has(cart, id)
  {
    if cart == [] then None
    else if cart[0].id == id then Some(0)
    else
      match Find(cart[1..], id)
      case None =>
        assert forall i :: 1 <= i < |cart| ==> cart[i] == cart[1..][i - 1];
        None
      case Some(k) =>
        assert cart[k + 1] == cart[1..][k];
        assert forall j :: 1 <= j < k + 1 ==> cart[j] == cart[1..][j - 1];
        Some(k + 1)
  }

  /** The line item a first add appends: the product record with quantity one. */
  function NewItem(p: Product): (r: Item)
  {
    Item(p.id, p.title, p.price, p.image, 1)
  }

  /** The cart with every line item carrying `id` raised by one (the `map` of addProduct). */
  function Incremented(cart: seq<Item>, id: int): (r: seq<Item>)
  {
    seq(|cart|, i requires 0 <= i < |cart| =>
      if cart[i].id == id then cart[i].(amount := cart[i].amount + 1) else cart[i])
  }

  /** The cart with every line item carrying `id` set to `amount` (the `map` of updateProductAmount). */
  function WithAmount(cart: seq<Item>, id: int, amount: int): (r: seq<Item>)
  {
    seq(|cart|, i requires 0 <= i < |cart| =>
      if cart[i].id == id then cart[i].(amount := amount) else cart[i])
  }

  /** The cart without the line items carrying `id` (the `filter` of removeProduct). */
  function Without(cart: seq<Item>, id: int): (r: seq<Item>)
  {
    if cart == [] then []
    else if cart[0].id == id then Without(cart[1..], id)
    else [cart[0]] + Without(cart[1..], id)
  }

  /**
   addProduct. Both lookups happen before anything is decided, so a failure of
   either one aborts. A product not yet in the cart is appended with quantity
   one and stock is not consulted. For a product already in the cart the
   guard compares the CURRENT quantity of the first matching item with the
   stock, so the quantity is raised even when it already equals the stock.
   */
  function AddProduct(cart: seq<Item>, productId: int, product: Option<Product>, stock: Option<Stock>): (r: Outcome)
    ensures product.None? || stock.None? ==> r == Err(LookupFailure)
    ensures product.Some? && stock.Some? && !Has(cart, productId) ==>
      r.Ok? && |r.cart| == |cart| + 1 && r.cart[..|cart|] == cart &&
      r.cart[|cart|] == Item(product.value.id, product.value.title, product.value.price, product.value.image, 1)
    ensures forall k :: product.Some? && stock.Some? && IsFirst(cart, productId, k) ==>
      (cart[k].amount > stock.value.amount ==> r == Err(StockExceeded)) &&
      (cart[k].amount <= stock.value.amount ==>
        r.Ok? && |r.cart| == |cart| &&
        forall i :: 0 <= i < |cart| ==>
          r.cart[i] == cart[i].(amount := if cart[i].id == productId then cart[i].amount + 1 else cart[i].amount))
    ensures r.Err? ==> r.error in {LookupFailure, StockExceeded}
  {
    if product.None? || stock.None? then Err(LookupFailure)
    else
      match Find(cart, productId)
      case None => Ok(cart + [NewItem(product.value)])
      case Some(k) =>
        if cart[k].amount > stock.value.amount then Err(StockExceeded)
        else Ok(Incremented(cart, cart[k].id))
  }

  /** removeProduct: an id not in the cart is reported, otherwise its items are filtered out. */
  function RemoveProduct(cart: seq<Item>, productId: int): (r: Outcome)
    ensures r == Err(NotFound) <==> !Has(cart, productId)
    ensures r.Err? ==> r.error == NotFound
    ensures r.Ok? ==> !Has(r.cart, productId)
    ensures r.Ok? ==> forall x :: x in r.cart <==> x in cart && x.id != productId
    ensures r.Ok? ==> r.cart == Without(cart, productId)
  {
    if Find(cart, productId).None? then Err(NotFound)
    else
      WithoutMembers(cart, productId);
      Ok(Without(cart, productId))
  }

  /**
   updateProductAmount. The stock lookup comes first; then a quantity below
   one is rejected before the stock is compared; an id not in the cart is no
   error and leaves the cart as it was.
   */
  function UpdateProductAmount(cart: seq<Item>, productId: int, amount: int, stock: Option<Stock>): (r: Outcome)
    ensures stock.None? ==> r == Err(LookupFailure)
    ensures stock.Some? && amount < 1 ==> r == Err(InvalidAmount)
    ensures stock.Some? && 1 <= amount && amount > stock.value.amount ==> r == Err(StockExceeded)
    ensures stock.Some? && 1 <= amount <= stock.value.amount ==>
      r.Ok? && |r.cart| == |cart| &&
      forall i :: 0 <= i < |cart| ==>
        r.cart[i] == cart[i].(amount := if cart[i].id == productId then amount else cart[i].amount)
    ensures r.Ok? && !Has(cart, productId) ==> r.cart == cart
  {
    if stock.None? then Err(LookupFailure)
    else if amount < 1 then Err(InvalidAmount)
    else if amount > stock.value.amount then Err(StockExceeded)
    else Ok(WithAmount(cart, productId, amount))
  }

  // ---------------------------------------------------------------------------
  // Properties of the filter behind removeProduct

  /** Exactly the items not carrying `id` survive the filter. */
  lemma {:induction false} WithoutMembers(cart: seq<Item>, id: int)
    ensures forall x :: x in Without(cart, id) <==> x in cart && x.id != id
  {
    if cart != [] {
      WithoutMembers(cart[1..], id);
      assert cart == [cart[0]] + cart[1..];
    }
  }

  /** The filter works piecewise, so the survivors keep their relative order. */
  lemma {:induction false} WithoutConcat(a: seq<Item>, b: seq<Item>, id: int)
    ensures Without(a + b, id) == Without(a, id) + Without(b, id)
  {
    if a == [] {
      assert a + b == b;
    } else {
      assert (a + b)[1..] == a[1..] + b;
      WithoutConcat(a[1..], b, id);
    }
  }

  /** A cart with no item carrying `id` passes the filter unchanged. */
  lemma {:induction false} WithoutAbsent(cart: seq<Item>, id: int)
    requires !Has(cart, id)
    ensures Without(cart, id) == cart
  {
    if cart != [] {
      assert !Has(cart[1..], id) by {
        forall i | 0 <= i < |cart[1..]| ensures cart[1..][i].id != id {
          assert cart[1..][i] == cart[i + 1];
        }
      }
      WithoutAbsent(cart[1..], id);
      assert cart == [cart[0]] + cart[1..];
    }
  }

  /**
   In a cart with unique ids, removing the product at position `k` yields the
   cart with exactly that one item cut out, the others in their order.
   */
  lemma RemoveCutsOne(cart: seq<Item>, k: nat)
    requires UniqueIds(cart)
    requires k < |cart|
    ensures RemoveProduct(cart, cart[k].id) == Ok(cart[..k] + cart[k + 1..])
  {
    var id := cart[k].id;
    assert cart == cart[..k] + ([cart[k]] + cart[k + 1..]);
    WithoutConcat(cart[..k], [cart[k]] + cart[k + 1..], id);
    WithoutConcat([cart[k]], cart[k + 1..], id);
    assert !Has(cart[..k], id) by {
      forall i | 0 <= i < k ensures cart[..k][i].id != id {
        assert cart[..k][i] == cart[i];
      }
    }
    var rest := cart[k + 1..];
    assert !Has(rest, id) by {
      forall i | 0 <= i < |rest| ensures rest[i].id != id {
        assert rest[i] == cart[k + 1 + i];
      }
    }
    WithoutAbsent(cart[..k], id);
    WithoutAbsent(cart[k + 1..], id);
    assert Without([cart[k]], id) == [] by {
      assert [cart[k]][1..] == [];
    }
    assert Has(cart, id) by { assert cart[k].id == id; }
  }

  /** Removing keeps the cart invariant. */
  lemma RemovePreservesWellFormed(cart: seq<Item>, productId: int)
    requires WellFormed(cart)
    ensures RemoveProduct(cart, productId).Ok? ==> WellFormed(RemoveProduct(cart, productId).cart)
  {
    var r := RemoveProduct(cart, productId);
    if r.Ok? {
      var k := Find(cart, productId).value;
      RemoveCutsOne(cart, k);
      var c := r.cart;
      assert c == cart[..k] + cart[k + 1..];
      forall i | 0 <= i < |c|
        ensures c[i] == cart[if i < k then i else i + 1]
      {
      }
    }
  }

  // ---------------------------------------------------------------------------
  // Properties of addProduct

  /** In a well-formed cart, an add that passes the guard raises that one item by one and touches nothing else. */
  lemma AddIncrementsOnlyThatItem(cart: seq<Item>, k: nat, product: Product, stock: Stock)
    requires UniqueIds(cart)
    requires k < |cart|
    requires cart[k].amount <= stock.amount
    ensures var r := AddProduct(cart, cart[k].id, Some(product), Some(stock));
      r.Ok? && |r.cart| == |cart| &&
      r.cart[k] == cart[k].(amount := cart[k].amount + 1) &&
      forall i :: 0 <= i < |cart| && i != k ==> r.cart[i] == cart[i]
  {
  }

  /** The guard lets an item already AT the stock through: the result holds stock plus one. */
  lemma AddCanExceedStock(cart: seq<Item>, k: nat, product: Product, stock: Stock)
    requires UniqueIds(cart)
    requires k < |cart|
    requires cart[k].amount == stock.amount
    ensures var r := AddProduct(cart, cart[k].id, Some(product), Some(stock));
      r.Ok? && r.cart[k].amount == stock.amount + 1
  {
  }

  /**
   Adding keeps the cart invariant, provided the product lookup answers with
   the record of the product asked for (the appended item takes its id from
   that record, not from the argument).
   */
  lemma AddPreservesWellFormed(cart: seq<Item>, productId: int, product: Option<Product>, stock: Option<Stock>)
    requires WellFormed(cart)
    requires product.Some? ==> product.value.id == productId
    ensures AddProduct(cart, productId, product, stock).Ok? ==>
      WellFormed(AddProduct(cart, productId, product, stock).cart)
  {
  }

  /** Without that proviso a first add can put a second item with an id already present into the cart. */
  lemma AddWithForeignRecordDuplicates()
    ensures var cart := [Item(2, "b", 1.0, "b.png", 1)];
      var r := AddProduct(cart, 1, Some(Product(2, "b", 1.0, "b.png")), Some(Stock(1, 5)));
      WellFormed(cart) && r.Ok? && !UniqueIds(r.cart)
  {
  }

  // ---------------------------------------------------------------------------
  // Properties of updateProductAmount

  /** A validated update twice in a row gives the same cart as once. */
  lemma UpdateIdempotent(cart: seq<Item>, productId: int, amount: int, stock: Option<Stock>)
    requires UpdateProductAmount(cart, productId, amount, stock).Ok?
    ensures var once := UpdateProductAmount(cart, productId, amount, stock).cart;
      UpdateProductAmount(once, productId, amount, stock) == Ok(once)
  {
  }

  /** In a well-formed cart, a validated update sets that one item's quantity and nothing else. */
  lemma UpdateSetsOnlyThatItem(cart: seq<Item>, k: nat, amount: int, stock: Stock)
    requires UniqueIds(cart)
    requires k < |cart|
    requires 1 <= amount <= stock.amount
    ensures var r := UpdateProductAmount(cart, cart[k].id, amount, Some(stock));
      r.Ok? && |r.cart| == |cart| &&
      r.cart[k] == cart[k].(amount := amount) &&
      forall i :: 0 <= i < |cart| && i != k ==> r.cart[i] == cart[i]
  {
  }

  /** Updating keeps the cart invariant. */
  lemma UpdatePreservesWellFormed(cart: seq<Item>, productId: int, amount: int, stock: Option<Stock>)
    requires WellFormed(cart)
    ensures UpdateProductAmount(cart, productId, amount, stock).Ok? ==>
      WellFormed(UpdateProductAmount(cart, productId, amount, stock).cart)
  {
  }

  // ---------------------------------------------------------------------------
  // Worked scenarios

  /** Empty cart, product 7 with stock 5: a first add yields the one new item. */
  lemma ScenarioFirstAdd()
    ensures AddProduct([], 7, Some(Product(7, "shoe", 9.5, "shoe.png")), Some(Stock(7, 5)))
      == Ok([Item(7, "shoe", 9.5, "shoe.png", 1)])
  {
  }

  /** A cart holding product 7 at quantity 5, stock 5: the add is NOT refused; the quantity becomes 6. */
  lemma ScenarioAddAtStock()
    ensures AddProduct([Item(7, "shoe", 9.5, "shoe.png", 5)], 7, Some(Product(7, "shoe", 9.5, "shoe.png")), Some(Stock(7, 5)))
      == Ok([Item(7, "shoe", 9.5, "shoe.png", 6)])
  {
  }

  /** A cart holding product 3 at quantity 2: setting its quantity to 0 is refused as invalid. */
  lemma ScenarioUpdateToZero()
    ensures UpdateProductAmount([Item(3, "cap", 4.0, "cap.png", 2)], 3, 0, Some(Stock(3, 10))) == Err(InvalidAmount)
  {
  }
}
