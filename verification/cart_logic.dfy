/** The cart store's operations as functions from the store before a call
    (the cart and what the storage key holds) to the store after it and the
    message shown to the shopper. The answers of the stock and product
    services are inputs. */
module CartLogic {
  import opened CartLines

  /** Answer of `GET /stock/{id}`: the units available, or a failed request. */
  datatype StockReply = Stock(amount: int) | StockFailed

  /** Answer of `GET /products/{id}`: the catalog record, or a failed request. */
  datatype ProductReply = Found(product: Product) | ProductFailed

  /** The notification an operation shows, one constructor per distinct text. */
  datatype Message =
    | AddedToCart          // "Produto adicionado ao carrinho com sucesso!"
    | RemovedFromCart      // "Produto removido do carrinho com sucesso!"
    | QuantityChangeError  // "Erro na alteração de quantidade do produto"
    | OutOfStock           // "Quantidade solicitada fora de estoque"
    | NoMoreToAdd          // "Não temos mais produto para adicionar!"
    | AddError             // "Erro na adição do produto"
    | RemoveError          // "Erro na remoção do produto"
    | NoMessage

  /** The in-memory cart and the storage key (None: the key is absent). */
  datatype Store = Store(cart: seq<Line>, stored: Option<seq<Line>>)

  /** Outcome of one operation: the new store and the message shown. */
  datatype Step = Step(store: Store, message: Message)

  /** Reloading from storage would give back the in-memory cart. */
  predicate Synced(s: Store)
  {
    Load(s.stored) == s.cart
  }

  /** Empties the cart and removes the storage key. */
  function ClearCart(s: Store): (r: Store)
    ensures r.cart == [] && r.stored == None
    ensures Synced(r)
  {
    Store([], None)
  }

  /** Sets the amount of the first line for `id` to `newAmount` and saves the
      cart; no line for `id` means nothing happens. The message compares the
      new amount with the old one: strictly larger reads "added", anything
      else (equal included) reads "removed". */
  function UpdateSuccess(s: Store, id: int, newAmount: int): (r: Step)
    ensures !Contains(s.cart, id) ==> r == Step(s, NoMessage)
    ensures Contains(s.cart, id) ==>
      AmountSetAt(s.cart, r.store.cart, FindIndex(s.cart, id), newAmount)
      && r.store.stored == Some(r.store.cart)
      && r.message in {AddedToCart, RemovedFromCart}
      && (r.message == AddedToCart <==> s.cart[FindIndex(s.cart, id)].amount < newAmount)
    ensures Synced(s) ==> Synced(r.store)
    ensures UniqueIds(s.cart) ==> UniqueIds(r.store.cart)
    ensures WellFormed(s.cart) && newAmount >= 1 ==> WellFormed(r.store.cart)
  {
    var i := FindIndex(s.cart, id);
    if i >= 0 then
      var message := if s.cart[i].amount < newAmount then AddedToCart else RemovedFromCart;
      var cart := s.cart[i := s.cart[i].(amount := newAmount)];
      Step(Store(cart, Some(cart)), message)
    else
      Step(s, NoMessage)
  }

  /** Sets a line's quantity directly. A request for 1 or less is refused
      before the stock service is asked; a failed stock request and a request
      above the stock are refused too; otherwise the update is committed. */
  function UpdateProductAmount(s: Store, id: int, amount: int, stock: StockReply): (r: Step)
    ensures amount <= 1 ==> r == Step(s, QuantityChangeError)
    ensures stock.StockFailed? ==> r == Step(s, QuantityChangeError)
    ensures amount > 1 && stock.Stock? && amount > stock.amount ==> r == Step(s, OutOfStock)
    ensures r.store != s ==> Contains(s.cart, id) && 1 < amount && stock.Stock? && amount <= stock.amount
    ensures 1 < amount && stock.Stock? && amount <= stock.amount ==>
      if Contains(s.cart, id) then
        AmountSetAt(s.cart, r.store.cart, FindIndex(s.cart, id), amount)
        && r.store.stored == Some(r.store.cart)
        && (r.message == AddedToCart <==> s.cart[FindIndex(s.cart, id)].amount < amount)
        && (r.message != AddedToCart ==> r.message == RemovedFromCart)
      else r == Step(s, NoMessage)
    ensures Synced(s) ==> Synced(r.store)
    ensures WellFormed(s.cart) ==> WellFormed(r.store.cart)
  {
    if amount <= 1 then Step(s, QuantityChangeError)
    else
      match stock
      case StockFailed => Step(s, QuantityChangeError)
      case Stock(available) =>
        if amount > available then Step(s, OutOfStock)
        else UpdateSuccess(s, id, amount)
  }

  /** Adds one unit of product `id`. The stock is asked for first, whatever
      the cart holds; the wanted amount is the current one plus one (zero for
      a product not in the cart yet) and must not exceed the stock. A product
      already in the cart goes through UpdateSuccess; a new one is fetched
      from the catalog and appended as a line with amount 1. */
  function AddProduct(s: Store, id: int, stock: StockReply, product: ProductReply): (r: Step)
    ensures r.message in {AddedToCart, NoMoreToAdd, AddError}
    ensures r.message != AddedToCart ==> r.store == s
    ensures stock.StockFailed? ==> r == Step(s, AddError)
    ensures Contains(s.cart, id) && stock.Stock? ==>
      var i := FindIndex(s.cart, id);
      if s.cart[i].amount + 1 <= stock.amount then
        r.message == AddedToCart
        && AmountSetAt(s.cart, r.store.cart, i, s.cart[i].amount + 1)
        && r.store.stored == Some(r.store.cart)
      else r == Step(s, NoMoreToAdd)
    ensures !Contains(s.cart, id) && stock.Stock? && stock.amount < 1 ==> r == Step(s, NoMoreToAdd)
    ensures !Contains(s.cart, id) && stock.Stock? && stock.amount >= 1 ==>
      match product
      case ProductFailed => r == Step(s, AddError)
      case Found(p) =>
        r.message == AddedToCart
        && r.store.cart == s.cart + [Line(p.id, p.title, p.price, p.image, 1)]
        && r.store.stored == Some(r.store.cart)
    ensures Synced(s) ==> Synced(r.store)
    ensures WellFormed(s.cart) && (product.Found? ==> product.product.id == id) ==> WellFormed(r.store.cart)
  {
    var existing := Find(s.cart, id);
    match stock
    case StockFailed => Step(s, AddError)
    case Stock(available) =>
      var current := if existing.Some? then existing.value.amount else 0;
      var amount := current + 1;
      if amount > available then Step(s, NoMoreToAdd)
      else if existing.Some? then UpdateSuccess(s, id, amount)
      else
        match product
        case ProductFailed => Step(s, AddError)
        case Found(p) =>
          var cart := s.cart + [NewLine(p)];
          Step(Store(cart, Some(cart)), AddedToCart)
  }

  /** Deletes the line of product `id`. A product not in the cart is reported
      and nothing changes; otherwise its line is spliced out and the cart saved. */
  function RemoveProduct(s: Store, id: int): (r: Step)
    ensures !Contains(s.cart, id) ==> r == Step(s, RemoveError)
    ensures Contains(s.cart, id) ==>
      r.message == NoMessage
      && r.store.cart == RemoveAt(s.cart, FindIndex(s.cart, id))
      && r.store.stored == Some(r.store.cart)
    ensures Contains(s.cart, id) ==> |r.store.cart| == |s.cart| - 1
    ensures Contains(s.cart, id) && UniqueIds(s.cart) ==> !Contains(r.store.cart, id)
    ensures forall x :: x != id ==> (Contains(r.store.cart, x) <==> Contains(s.cart, x))
    ensures Synced(s) ==> Synced(r.store)
    ensures WellFormed(s.cart) ==> WellFormed(r.store.cart)
  {
    if !Contains(s.cart, id) then Step(s, RemoveError)
    else
      var i := FindIndex(s.cart, id);
      if i >= 0 then
        var cart := RemoveAt(s.cart, i);
        RemoveAtKeepsOthers(s.cart, id);
        Step(Store(cart, Some(cart)), NoMessage)
      else
        Step(s, NoMessage)
  }
}
