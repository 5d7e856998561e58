/** Entities of the cart store: catalog products, cart lines, the searches the
    store runs over its list of lines, and the invariants a cart is meant to keep. */
module CartLines {

  datatype Option<+T> = None | Some(value: T)

  /** A catalog record as the product service returns it. It has no `amount`:
      the quantity only exists once the product is a line of the cart. */
  datatype Product = Product(id: int, title: string, price: int, image: string)

  /** One line of the cart: the catalog fields plus the quantity wanted. */
  datatype Line = Line(id: int, title: string, price: int, image: string, amount: int)

  /** The catalog fields of a line. */
  function ProductOf(l: Line): Product
  {
    Product(l.id, l.title, l.price, l.image)
  }

  /** The line built for a product added for the first time: the catalog
      fields spread over a line whose amount is 1. */
  function NewLine(p: Product): (l: Line)
    ensures ProductOf(l) == p && l.amount == 1
  {
    Line(p.id, p.title, p.price, p.image, 1)
  }

  /** Some line of the cart carries product `id` (the store's `some` search,
      which tries the lines from the first on). */
  function Contains(cart: seq<Line>, id: int): (r: bool)
    ensures r <==> exists j :: 0 <= j < |cart| && cart[j].id == id
  {
    if |cart| == 0 then false
    else
      assert forall j :: 1 <= j < |cart| ==> cart[j] == cart[1..][j - 1];
      cart[0].id == id || Contains(cart[1..], id)
  }

  /** Position of the first line carrying product `id`, or -1 when there is
      none (the store's `findIndex` search). */
  function FindIndex(cart: seq<Line>, id: int): (r: int)
    ensures -1 <= r < |cart|
    ensures r >= 0 <==> Contains(cart, id)
    ensures r >= 0 ==> cart[r].id == id
    ensures r >= 0 ==> forall j :: 0 <= j < r ==> cart[j].id != id
  {
    if |cart| == 0 then -1
    else if cart[0].id == id then 0
    else
      var k := FindIndex(cart[1..], id);
      assert forall j :: 1 <= j < |cart| ==> cart[j] == cart[1..][j - 1];
      if k < 0 then -1 else k + 1
  }

  /** The first line carrying product `id`, if any (the store's `find` search). */
  function Find(cart: seq<Line>, id: int): (r: Option<Line>)
    ensures r.Some? <==> Contains(cart, id)
    ensures r.Some? ==> r.value.id == id && r.value in cart
    ensures r.Some? ==> r.value == cart[FindIndex(cart, id)]
  {
    var i := FindIndex(cart, id);
    if i < 0 then None else Some(cart[i])
  }

  /** No two lines share a product id. */
  predicate UniqueIds(cart: seq<Line>)
  {
    forall i, j :: 0 <= i < j < |cart| ==> cart[i].id != cart[j].id
  }

  /** Every line wants at least one unit. */
  predicate PositiveAmounts(cart: seq<Line>)
  {
    forall i :: 0 <= i < |cart| ==> cart[i].amount >= 1
  }

  predicate WellFormed(cart: seq<Line>)
  {
    UniqueIds(cart) && PositiveAmounts(cart)
  }

  /** The cart the store starts with, given what the storage key holds:
      the saved lines when the key is present, the empty cart otherwise. */
  function Load(saved: Option<seq<Line>>): seq<Line>
  {
    match saved
    case Some(lines) => lines
    case None => []
  }

  /** `after` is `before` with only the amount of line `i` set to `a`:
      same length, same order, every other line untouched. */
  predicate AmountSetAt(before: seq<Line>, after: seq<Line>, i: int, a: int)
  {
    0 <= i < |before| && |after| == |before|
    && after[i] == before[i].(amount := a)
    && forall k :: 0 <= k < |before| && k != i ==> after[k] == before[k]
  }

  /** Line `i` deleted, the other lines kept in their relative order
      (the store's `splice(i, 1)`). */
  function RemoveAt(cart: seq<Line>, i: int): (r: seq<Line>)
    requires 0 <= i < |cart|
    ensures |r| == |cart| - 1
    ensures forall k :: 0 <= k < i ==> r[k] == cart[k]
    ensures forall k :: i <= k < |r| ==> r[k] == cart[k + 1]
  {
    cart[..i] + cart[i + 1..]
  }

  /** Deleting the line of a product from a cart with unique ids leaves unique
      ids, keeps amounts positive, and makes exactly that product disappear:
      every other product is still present. */
  lemma {:induction false} RemoveAtKeepsOthers(cart: seq<Line>, id: int)
    requires Contains(cart, id)
    ensures UniqueIds(cart) ==> UniqueIds(RemoveAt(cart, FindIndex(cart, id)))
    ensures PositiveAmounts(cart) ==> PositiveAmounts(RemoveAt(cart, FindIndex(cart, id)))
    ensures UniqueIds(cart) ==> !Contains(RemoveAt(cart, FindIndex(cart, id)), id)
    ensures forall x :: x != id ==> (Contains(RemoveAt(cart, FindIndex(cart, id)), x) <==> Contains(cart, x))
  {
    var i := FindIndex(cart, id);
    var r := RemoveAt(cart, i);
    forall a, b | 0 <= a < b < |r| ensures UniqueIds(cart) ==> r[a].id != r[b].id {
      var a', b' := if a < i then a else a + 1, if b < i then b else b + 1;
      assert r[a] == cart[a'] && r[b] == cart[b'];
    }
    forall k | 0 <= k < |r|
      ensures PositiveAmounts(cart) ==> r[k].amount >= 1
      ensures UniqueIds(cart) ==> r[k].id != id
    {
      var k' := if k < i then k else k + 1;
      assert r[k] == cart[k'];
    }
    forall x | x != id ensures Contains(r, x) <==> Contains(cart, x) {
      if Contains(cart, x) {
        var j :| 0 <= j < |cart| && cart[j].id == x;
        assert j != i;
        var j' := if j < i then j else j - 1;
        assert r[j'] == cart[j];
      }
    }
  }
}
