/** Properties of the cart store that relate several operations. */
module CartProperties {
  import opened CartLines
  import opened CartLogic

  /** One call on the store, with the service answers it receives. */
  datatype Op =
    | Add(id: int, stock: StockReply, product: ProductReply)
    | Update(id: int, amount: int, stock: StockReply)
    | Remove(id: int)
    | Clear

  function Apply(s: Store, op: Op): Store
  {
    match op
    case Add(id, stock, product) => AddProduct(s, id, stock, product).store
    case Update(id, amount, stock) => UpdateProductAmount(s, id, amount, stock).store
    case Remove(id) => RemoveProduct(s, id).store
    case Clear => ClearCart(s)
  }

  /** The store after the calls of `ops`, one after the other. */
  function Run(s: Store, ops: seq<Op>): Store
    decreases |ops|
  {
    if ops == [] then s else Run(Apply(s, ops[0]), ops[1..])
  }

  /** The catalog answers a request for product `id` with the record of `id`. */
  predicate CatalogAgrees(op: Op)
  {
    op.Add? && op.product.Found? ==> op.product.product.id == op.id
  }

  /** Whatever sequence of calls is made, a well-formed cart whose storage
      key mirrors it stays well-formed (unique ids, amounts of at least 1)
      and mirrored, provided the catalog answers with the product asked for. */
  lemma {:induction false} RunKeepsInvariants(s: Store, ops: seq<Op>)
    requires WellFormed(s.cart) && Synced(s)
    requires forall k :: 0 <= k < |ops| ==> CatalogAgrees(ops[k])
    ensures WellFormed(Run(s, ops).cart) && Synced(Run(s, ops))
    decreases |ops|
  {
    if ops != [] {
      assert CatalogAgrees(ops[0]);
      RunKeepsInvariants(Apply(s, ops[0]), ops[1..]);
    }
  }

  /** Clearing twice leaves the same state as clearing once. */
  lemma ClearCartIdempotent(s: Store)
    ensures ClearCart(ClearCart(s)) == ClearCart(s)
  {
  }

  /** The amounts committed by a successful add or update do not exceed the
      stock the service reported for that call. */
  lemma {:induction false} CommitRespectsStock(s: Store, id: int, amount: int, stock: StockReply, product: ProductReply)
    requires WellFormed(s.cart)
    requires product.Found? ==> product.product.id == id
    ensures AddProduct(s, id, stock, product).message == AddedToCart ==>
      stock.Stock? && Find(AddProduct(s, id, stock, product).store.cart, id).Some?
      && 1 <= Find(AddProduct(s, id, stock, product).store.cart, id).value.amount <= stock.amount
    ensures UpdateProductAmount(s, id, amount, stock).message in {AddedToCart, RemovedFromCart} ==>
      stock.Stock? && Find(UpdateProductAmount(s, id, amount, stock).store.cart, id).Some?
      && Find(UpdateProductAmount(s, id, amount, stock).store.cart, id).value.amount == amount <= stock.amount
  {
    if Contains(s.cart, id) {
      var i := FindIndex(s.cart, id);
      var a := AddProduct(s, id, stock, product);
      if a.message == AddedToCart {
        SetAmountKeepsIndex(s.cart, a.store.cart, i, s.cart[i].amount + 1);
      }
      var u := UpdateProductAmount(s, id, amount, stock);
      if u.message in {AddedToCart, RemovedFromCart} {
        SetAmountKeepsIndex(s.cart, u.store.cart, i, amount);
      }
    } else {
      var a := AddProduct(s, id, stock, product);
      if a.message == AddedToCart {
        var c := a.store.cart;
        assert c[|s.cart|].id == id;
        assert FindIndex(c, id) == |s.cart|;
      }
    }
  }

  /** Setting the amount of the first line for `id` keeps that line the first
      one for `id`. */
  lemma SetAmountKeepsIndex(before: seq<Line>, after: seq<Line>, i: int, a: int)
    requires AmountSetAt(before, after, i, a)
    requires FindIndex(before, before[i].id) == i
    ensures FindIndex(after, before[i].id) == i
  {
  }

  /** Adding a product that was not in the cart and then removing it gives
      back the cart as it was. */
  lemma {:induction false} AddThenRemoveRestores(s: Store, id: int, available: int, p: Product)
    requires !Contains(s.cart, id) && available >= 1 && p.id == id
    ensures RemoveProduct(AddProduct(s, id, Stock(available), Found(p)).store, id).store.cart == s.cart
  {
    var c := AddProduct(s, id, Stock(available), Found(p)).store.cart;
    assert c[|s.cart|].id == id;
    assert FindIndex(c, id) == |s.cart|;
    assert RemoveAt(c, |s.cart|) == s.cart;
  }
}
