# Shopping-cart store (RocketShoes cart hook)

This project models the cart store of the RocketShoes front end: the state
logic inside `CartProvider` in `src/hooks/useCart.tsx`. The store keeps an
ordered list of cart lines. Each line holds a product's `id`, `title`,
`price`, `image` and the `amount` wanted. The list is mirrored to the
local-storage key `"@RocketShoes:cart"`. Four operations change the list:
`addProduct`, `updateProductAmount` (through `updateSuccess`),
`removeProduct` and `clearCart`. The first two consult the stock service
before they commit anything.

The project has four files:

- `cart_lines.dfy` (module `CartLines`) holds the entities (`Product`, the
  catalog record without an amount, and `Line`). It also holds the store's
  searches `find`, `findIndex` and `some` (`Find`, `FindIndex`, `Contains`),
  the `splice` deletion (`RemoveAt`), and the cart invariants: unique ids
  (`UniqueIds`) and amounts of at least 1 (`PositiveAmounts`).
- `cart_logic.dfy` (module `CartLogic`) describes each operation as a
  function. The function maps the store before the call, together with the
  services' answers, to the store after the call and the notification shown.
  The store before and after is a `Store`: the cart plus what the storage key
  holds, with `None` meaning the key is absent. The contracts of these
  functions state the guards, the exact change a commit makes, and that a
  rejected call changes nothing. They also state that each operation keeps
  both invariants and keeps the storage key in step with the cart
  (`Synced`: reloading gives back the in-memory cart).
- `cart_properties.dfy` (module `CartProperties`) holds properties of
  several calls: any sequence of calls keeps the invariants; a committed
  amount never exceeds the stock reported for that call; clearing is
  idempotent; adding a new product and then removing it restores the cart.
- `cart_store.dfy` (module `CartStore`) holds the class `CartProvider`. Its
  `cart` field is reassigned the way the provider mutates its array: a
  field update, a `push` and a `splice`. Its ghost `stored` field stands for
  the storage key. Each method is proved to end in exactly the state, and to
  return exactly the message, that the matching `CartLogic` function gives.

The answers of `GET /stock/{id}` and `GET /products/{id}` are inputs to the
operations (`StockReply`, `ProductReply`). A failed request is the
`StockFailed` or `ProductFailed` answer. The notifications are the values of
`Message`, one value per distinct text:

| value | text | shown at |
|---|---|---|
| `AddedToCart` | "Produto adicionado ao carrinho com sucesso!" | lines 59 and 129 |
| `RemovedFromCart` | "Produto removido do carrinho com sucesso!" | line 61 |
| `QuantityChangeError` | "Erro na alteração de quantidade do produto" | lines 77 and 91 |
| `OutOfStock` | "Quantidade solicitada fora de estoque" | line 85 |
| `NoMoreToAdd` | "Não temos mais produto para adicionar!" | line 111 |
| `AddError` | "Erro na adição do produto" | line 132 |
| `RemoveError` | "Erro na remoção do produto" | line 146 |
| `NoMessage` | no notification | successful removal, an update that passes its checks but finds no line, clear |

The model keeps these behaviours of the code:

- A direct update to an amount of 1 or less is refused (`amount <= 1`), so a
  request for exactly 1 is refused too. It is refused before the stock
  service is asked.
- The second argument of `updateSuccess` is the new amount (the source names
  it `stock`).
- When an update sets a line to its current amount, the "removed" text is
  shown, because the comparison is strict.
- `addProduct` asks for the stock before it decides whether the product is
  already in the cart. So a failed stock request reports `AddError` for
  both branches.
- A new line takes its `id` from the catalog record the product service
  returns, not from the requested id. Ids stay unique only when the catalog
  answers with the requested product. The uniqueness results therefore carry
  that condition as a hypothesis.
- An update that passes the amount and stock checks but names a product
  that is not in the cart does nothing and shows no message. Removing a
  product that is not in the cart reports `RemoveError`.

## Model

| member | source | states |
|---|---|---|
| `CartLines.Contains` | src/hooks/useCart.tsx:141-143 | the result is true exactly when some line of the cart carries the id |
| `CartLines.NewLine` | src/hooks/useCart.tsx:122 | the new line carries exactly the catalog record's fields, and its amount is 1 |
| `CartLines.FindIndex` | src/hooks/useCart.tsx:55 | the result is -1 exactly when no line has the id; otherwise it is the position of the first line with that id |
| `CartLines.Find` | src/hooks/useCart.tsx:101 | a line is found exactly when the cart contains the id; the line found has that id, is in the cart and is the line at the first matching position |
| `CartLines.RemoveAt` | src/hooks/useCart.tsx:153 | `splice(i, 1)` shortens the cart by one; lines before `i` stay put and lines after it move down one place in the same order |
| `CartLines.RemoveAtKeepsOthers` | src/hooks/useCart.tsx:150-155 | deleting a product's line keeps ids unique and amounts positive; the product disappears (ids unique) and every other product stays present |
| `CartLogic.ClearCart` | src/hooks/useCart.tsx:46-49 | the result is the empty cart with the storage key absent, which is in step with storage |
| `CartLogic.UpdateSuccess` | src/hooks/useCart.tsx:51-71 | with no line for the id, nothing changes and no message is shown; otherwise only that line's amount becomes the new amount, the cart is saved, and the "added" text is shown exactly when the new amount is strictly larger, else the "removed" text; keeps unique ids, positive amounts (for a new amount of at least 1) and sync with storage |
| `CartLogic.UpdateProductAmount` | src/hooks/useCart.tsx:73-95 | an amount of 1 or less is refused whatever the stock answer; a failed stock request or an amount above the stock is refused; a refused call changes nothing; otherwise the first line for the id gets exactly that amount, everything else stays the same, and the cart is saved; a missing id is a silent no-op; keeps both invariants and sync with storage |
| `CartLogic.AddProduct` | src/hooks/useCart.tsx:97-134 | only `AddedToCart` comes with a change; a failed stock request gives `AddError`; an existing line rises by exactly one when the result fits the stock, and otherwise `NoMoreToAdd` is shown and nothing changes; a new product with stock below 1 is refused; otherwise a failed product request gives `AddError`, and a found product is appended as one line with amount 1 after the untouched earlier lines; keeps sync with storage, and keeps both invariants when the catalog answers with the requested id |
| `CartLogic.RemoveProduct` | src/hooks/useCart.tsx:136-162 | an absent id gives `RemoveError` and nothing changes; a present id deletes its first line, keeps the others in order, shortens the cart by one, removes the product (ids unique), keeps every other product present and saves the cart; keeps both invariants and sync with storage |
| `CartProperties.RunKeepsInvariants` | src/hooks/useCart.tsx:46-162 | after any sequence of add, update, remove and clear calls, a well-formed cart in step with storage stays well-formed and in step, when the catalog answers with the requested ids |
| `CartProperties.ClearCartIdempotent` | src/hooks/useCart.tsx:46-49 | clearing twice gives the same state as clearing once |
| `CartProperties.CommitRespectsStock` | src/hooks/useCart.tsx:81-128 | after a committed add, the product's line has an amount between 1 and the reported stock; after a committed update (either success message, including one that sets the current amount again), the first line for the id has the requested amount, which does not exceed the reported stock |
| `CartProperties.AddThenRemoveRestores` | src/hooks/useCart.tsx:118-155 | adding a product not yet in the cart and then removing it gives back the original cart |
| `CartStore.CartProvider.constructor` | src/hooks/useCart.tsx:36-44 | the initial cart is the saved list when the storage key is present, otherwise empty; the store starts in step with storage |
| `CartStore.CartProvider.ClearCart` | src/hooks/useCart.tsx:46-49 | the cart becomes empty and the storage key is removed |
| `CartStore.CartProvider.UpdateSuccess` | src/hooks/useCart.tsx:51-71 | the new state and message are those of `CartLogic.UpdateSuccess`; sync with storage is kept |
| `CartStore.CartProvider.UpdateProductAmount` | src/hooks/useCart.tsx:73-95 | the new state and message are those of `CartLogic.UpdateProductAmount`; an amount of 1 or less leaves cart and storage as they were; both invariants and sync are kept |
| `CartStore.CartProvider.AddProduct` | src/hooks/useCart.tsx:97-134 | the new state and message are those of `CartLogic.AddProduct`; anything but `AddedToCart` leaves cart and storage as they were; sync is kept, and both invariants are kept when the catalog answers with the requested id |
| `CartStore.CartProvider.RemoveProduct` | src/hooks/useCart.tsx:136-162 | the new state and message are those of `CartLogic.RemoveProduct`; an absent id gives `RemoveError` and leaves cart and storage as they were; both invariants and sync are kept |

## Left out

- React wiring is not modelled: `createContext`, `useState`, `useCallback`, `useContext`, the provider element and the context check in `useCart` (src/hooks/useCart.tsx:179-187). `setCart` becomes an assignment to the `cart` field.
- `api.get` is not modelled. Its answers are the `StockReply` and `ProductReply` inputs, and a thrown request is their failed value.
- `localStorage` and the JSON encoding are not modelled. The storage key is the ghost field `stored`, and serialising and parsing are taken to be exact inverses. The initial load is not checked for a malformed payload.
- `toast` calls are not modelled. Each operation returns a `Message` value instead.
- The notifier is not modelled. That is the re-render that `setCart` triggers, and the rule that each commit notifies exactly once.
- Overlapping asynchronous calls are not modelled. Neither are the races they allow on the shared `cart` array, which later calls alias as `newCart` and `removeCart`. Each operation runs to completion before the next starts.
- Aliasing of line objects is not modelled. `newCart[productIndex].amount = ...` updates a line that the previous render's array also holds. The model replaces the line by value.
- Every number is a Dafny `int`. The model leaves out fractional amounts and `Number(...)` conversions of non-numeric data. It also leaves out a catalog record that carries its own `amount` field, which would override the 1 in `{ amount: 1, ...data }`.
- Failures of `localStorage.setItem` (quota or security errors, src/hooks/useCart.tsx:67, 126, 155) are not modelled, and neither is a malformed loaded payload that makes the searches throw. So the `catch` of `removeProduct` (src/hooks/useCart.tsx:157-159), which only these reach, is not modelled either. The `catch` paths of `addProduct` and `updateProductAmount` are modelled only for failed service requests.
- src/pages/Cart/index.tsx and src/pages/Home/index.tsx are not part of this model. They hold presentation: totals formatted with `formatPrice`, the product listing, and one-line increment, decrement and add handlers.

