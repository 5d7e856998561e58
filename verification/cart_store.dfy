/** The cart store as the provider keeps it: a mutable list of lines and the
    storage key that mirrors it. Each method changes the list the way the
    provider does and is proved to end in the state, with the message, that
    the matching function of CartLogic describes. */
module CartStore {
  import opened CartLines
  import opened CartLogic

  class CartProvider {
    /** The lines of the cart, in the order they were first added. */
    var cart: seq<Line>
    /** What the storage key holds: None while the key is absent. */
    ghost var stored: Option<seq<Line>>

    ghost function State(): Store
      reads this
    {
      Store(cart, stored)
    }

    /** The storage key gives back the in-memory cart. */
    ghost predicate Valid()
      reads this
    {
      Synced(State())
    }

    /** Initial load: the saved lines when the storage key is present,
        the empty cart otherwise. */
    constructor (saved: Option<seq<Line>>)
      ensures stored == saved
      ensures cart == (if saved.Some? then saved.value else [])
      ensures Valid()
    {
      if saved.Some? {
        cart := saved.value;
      } else {
        cart := [];
      }
      stored := saved;
    }

    /** Removes the storage key and empties the cart. */
    method ClearCart()
      modifies this
      ensures cart == [] && stored == None
      ensures State() == CartLogic.ClearCart(old(State()))
      ensures Valid()
    {
      stored := None;
      cart := [];
    }

    /** Sets the amount of the first line for `id` to `newAmount` and saves
        the cart; does nothing when no line has that id. */
    method UpdateSuccess(id: int, newAmount: int) returns (message: Message)
      modifies this
      ensures Step(State(), message) == CartLogic.UpdateSuccess(old(State()), id, newAmount)
      ensures Contains(old(cart), id) ==> stored == Some(cart)
      ensures old(Valid()) ==> Valid()
    {
      var productIndex := FindIndex(cart, id);
      if productIndex >= 0 {
        if cart[productIndex].amount < newAmount {
          message := AddedToCart;
        } else {
          message := RemovedFromCart;
        }
        cart := cart[productIndex := cart[productIndex].(amount := newAmount)];
        stored := Some(cart);
      } else {
        message := NoMessage;
      }
    }

    /** Sets a line's quantity directly, after refusing amounts of 1 or less
        and amounts above the reported stock. */
    method UpdateProductAmount(productId: int, amount: int, stock: StockReply) returns (message: Message)
      modifies this
      ensures Step(State(), message) == CartLogic.UpdateProductAmount(old(State()), productId, amount, stock)
      ensures amount <= 1 ==> message == QuantityChangeError && cart == old(cart) && stored == old(stored)
      ensures old(Valid()) ==> Valid()
      ensures old(WellFormed(cart)) ==> WellFormed(cart)
    {
      if amount <= 1 {
        return QuantityChangeError;
      }
      match stock {
        case StockFailed =>
          message := QuantityChangeError;
        case Stock(productAmount) =>
          if amount > productAmount {
            return OutOfStock;
          }
          message := UpdateSuccess(productId, amount);
      }
    }

    /** Adds one unit of a product: asks for the stock first, then either
        raises the existing line by one or appends a new line with amount 1. */
    method AddProduct(productId: int, stock: StockReply, product: ProductReply) returns (message: Message)
      modifies this
      ensures Step(State(), message) == CartLogic.AddProduct(old(State()), productId, stock, product)
      ensures message != AddedToCart ==> cart == old(cart) && stored == old(stored)
      ensures old(Valid()) ==> Valid()
      ensures old(WellFormed(cart)) && (product.Found? ==> product.product.id == productId) ==> WellFormed(cart)
    {
      var productExists := Find(cart, productId);
      match stock {
        case StockFailed =>
          return AddError;
        case Stock(stockAmount) =>
          var currentAmount := if productExists.Some? then productExists.value.amount else 0;
          var amount := currentAmount + 1;
          if amount > stockAmount {
            return NoMoreToAdd;
          }
          if productExists.Some? {
            message := UpdateSuccess(productId, amount);
          } else {
            match product {
              case ProductFailed =>
                return AddError;
              case Found(data) =>
                var item := NewLine(data);
                cart := cart + [item];
                stored := Some(cart);
                message := AddedToCart;
            }
          }
      }
    }

    /** Deletes the line of a product, or reports that the product is not in
        the cart. */
    method RemoveProduct(id: int) returns (message: Message)
      modifies this
      ensures Step(State(), message) == CartLogic.RemoveProduct(old(State()), id)
      ensures !Contains(old(cart), id) ==> message == RemoveError && cart == old(cart) && stored == old(stored)
      ensures old(Valid()) ==> Valid()
      ensures old(WellFormed(cart)) ==> WellFormed(cart)
    {
      var productExists := Contains(cart, id);
      if !productExists {
        return RemoveError;
      }
      var productIndex := FindIndex(cart, id);
      if productIndex >= 0 {
        cart := RemoveAt(cart, productIndex);
        stored := Some(cart);
      }
      message := NoMessage;
    }
  }

  /** Example calls on the store, with what a caller can conclude from the
      method contracts alone. */
  method Scenarios()
  {
    var shoe := Product(42, "Shoe", 100, "x.png");
    var store := new CartProvider(None);
    var m := store.AddProduct(42, Stock(5), Found(shoe));
    assert m == AddedToCart && store.cart == [Line(42, "Shoe", 100, "x.png", 1)];

    store := new CartProvider(Some([Line(42, "Shoe", 100, "x.png", 3)]));
    m := store.AddProduct(42, Stock(3), ProductFailed);
    assert m == NoMoreToAdd && store.cart == [Line(42, "Shoe", 100, "x.png", 3)];
    m := store.UpdateProductAmount(42, 1, Stock(10));
    assert m == QuantityChangeError && store.cart[0].amount == 3;

    store := new CartProvider(Some([Line(7, "Boot", 50, "b.png", 2)]));
    assert store.cart[0].id == 7;
    m := store.RemoveProduct(7);
    assert store.cart == [] && store.stored == Some([]);

    store := new CartProvider(Some([Line(9, "Sock", 5, "s.png", 1)]));
    m := store.UpdateProductAmount(9, 4, Stock(10));
    assert m == AddedToCart && store.cart == [Line(9, "Sock", 5, "s.png", 4)];

    store.ClearCart();
    store.ClearCart();
    assert store.cart == [] && store.stored == None;
  }
}
