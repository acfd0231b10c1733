/**
 The cart provider: the one object that holds the current cart and replaces
 it after every successful operation. Each method asks CartLogic for the
 outcome; on success it installs the new cart, on failure it keeps the old
 one and hands back the error tag the provider would show as a notification.
 */
module CartState {
  import opened CartLogic

  /** The provider's state after an operation: the new cart on success, the old one and the tag on failure. */
  predicate Applied(before: seq<Item>, outcome: Outcome, after: seq<Item>, error: Option<CartError>)
  {
    match outcome
    case Ok(c) => after == c && error == None
    case Err(e) => after == before && error == Some(e)
  }

  class CartProvider {
    var cart: seq<Item>

    /**
     Start-up: the cart saved under the storage key, or an empty cart when
     nothing (or an empty string) is saved there. `saved` is the already
     decoded value.
     */
    constructor (saved: Option<seq<Item>>)
      ensures cart == if saved.Some? then saved.value else []
    {
      if saved.Some? {
        cart := saved.value;
      } else {
        cart := [];
      }
    }

    /** addProduct, with the two lookup answers (None for a failed request) as inputs. */
    method AddProduct(productId: int, product: Option<Product>, stock: Option<Stock>) returns (error: Option<CartError>)
      modifies this
      ensures Applied(old(cart), CartLogic.AddProduct(old(cart), productId, product, stock), cart, error)
      ensures error.Some? ==> cart == old(cart) && error.value in {LookupFailure, StockExceeded}
      ensures old(WellFormed(cart)) && (product.Some? ==> product.value.id == productId) ==> WellFormed(cart)
    {
      if WellFormed(cart) && (product.Some? ==> product.value.id == productId) {
        AddPreservesWellFormed(cart, productId, product, stock);
      }
      var outcome := CartLogic.AddProduct(cart, productId, product, stock);
      match outcome
      case Ok(c) =>
        cart := c;
        error := None;
      case Err(e) =>
        error := Some(e);
    }

    /** removeProduct. */
    method RemoveProduct(productId: int) returns (error: Option<CartError>)
      modifies this
      ensures Applied(old(cart), CartLogic.RemoveProduct(old(cart), productId), cart, error)
      ensures error == Some(NotFound) <==> !Has(old(cart), productId)
      ensures error.None? ==> !Has(cart, productId)
      ensures old(WellFormed(cart)) ==> WellFormed(cart)
    {
      if WellFormed(cart) {
        RemovePreservesWellFormed(cart, productId);
      }
      var outcome := CartLogic.RemoveProduct(cart, productId);
      match outcome
      case Ok(c) =>
        cart := c;
        error := None;
      case Err(e) =>
        error := Some(e);
    }

    /** updateProductAmount, with the stock lookup answer (None for a failed request) as input. */
    method UpdateProductAmount(productId: int, amount: int, stock: Option<Stock>) returns (error: Option<CartError>)
      modifies this
      ensures Applied(old(cart), CartLogic.UpdateProductAmount(old(cart), productId, amount, stock), cart, error)
      ensures error.None? ==> |cart| == |old(cart)|
      ensures old(WellFormed(cart)) ==> WellFormed(cart)
    {
      if WellFormed(cart) {
        UpdatePreservesWellFormed(cart, productId, amount, stock);
      }
      var outcome := CartLogic.UpdateProductAmount(cart, productId, amount, stock);
      match outcome
      case Ok(c) =>
        cart := c;
        error := None;
      case Err(e) =>
        error := Some(e);
    }
  }
}
