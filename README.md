# RocketShoes cart, modelled in Dafny

The RocketShoes storefront keeps a shopping cart in a `CartProvider`
(`src/hooks/useCart.tsx`). The cart is an ordered list of line items, each a
product id with an `amount`. Three operations change it:

- `addProduct` on a product the cart already holds asks
  `updateProductAmount` for one more unit, so the bump happens only within
  stock. For a new product it first checks the stock and then appends a line
  item with amount 1.
- `removeProduct` filters out every line item of an id. An absent id is an
  error.
- `updateProductAmount` sets the amount of an id. A non-positive amount is
  ignored. An amount above the stock is refused.

Every successful change also writes the new list to a storage slot. In the
model, every failure raises one user-facing error notice and leaves the cart
and the slot alone. In the source, a failing storage write is an exception:
the in-memory cart has already changed when it happens, so the slot is left
stale. The model does not cover that case (see "## Left out").

The project has three modules:

- `CartItems` (`cart_items.dfy`) holds the line items and the list transforms
  the operations use. `find` becomes `Find`, the two `filter`s become
  `Matching` and `RemoveId`, and the `map` becomes `SetAmount`. Each is a
  recursive function. Lemmas state what each transform keeps and changes.
- `CartSteps` (`cart_steps.dfy`) holds the cart as a state machine over
  values. `State` holds the cart, the storage slot and the notices.
  `AddStep`, `RemoveStep` and `UpdateStep` are the three transitions. Their
  contracts state every outcome of each operation and the two invariants:
  - the slot reloads to the in-memory cart (`Synced`);
  - ids are unique and every amount is at least 1 (`WellFormed`).
- `CartContext` (`cart_provider.dfy`) holds the class `CartProvider`. Its
  fields `cart`, `stored` and `notices` are updated in place. Each method is
  proved to move the object from one state to the next exactly as its
  transition says. Three short client sessions show what a caller can
  derive from the contracts alone.

The answers of the remote stock and catalog services are method parameters.
A stock lookup is `Found(amount)` or `LookupFailed`. A catalog lookup is a
flag that says whether it succeeded. `toast.error` is modelled as appending a
`Notice` tag: `OutOfStock`, `AddError`, `RemoveError` or `UpdateError`.
Writing to `localStorage` is modelled as assigning `Some(cart)` to `stored`.
The initial load is modelled as `Load`: the stored list, or no line items
when the slot is empty.

When the cart is changed through `addProduct` on an id it already holds, the
source calls `updateProductAmount`. A failed stock lookup on that path
therefore raises the update's notice (`UpdateError`), not the add's. The
model keeps this.

`updateProductAmount` on an id the cart does not hold, within stock, maps
over the cart without changing anything but still writes it to the slot.
`CartSteps.UpdateAbsentRewrites` states this.

Ids are guaranteed unique only when the session starts from an empty slot or
from a well-formed stored cart.
The stored value is not validated on load. So the invariant is stated as
"a well-formed cart stays well-formed" rather than as an object invariant.

## Model

| member | source | states |
|---|---|---|
| `CartItems.Find` | src/hooks/useCart.tsx:42 | a found line item is in the cart and carries the id; nothing is found exactly when no line item carries the id |
| `CartItems.FindFirst` | src/hooks/useCart.tsx:42 | `find` returns the first line item carrying the id |
| `CartItems.FindUnique` | src/hooks/useCart.tsx:42 | with unique ids, `find` returns the one line item carrying the id |
| `CartItems.MatchingCounts` | src/hooks/useCart.tsx:69 | the matching filter keeps each line item with the id as often as the cart holds it, and nothing else |
| `CartItems.RemoveIdCounts` | src/hooks/useCart.tsx:73 | the removing filter keeps each line item without the id as often as the cart holds it, and drops every line item with the id |
| `CartItems.MatchingNonEmpty` | src/hooks/useCart.tsx:69-72 | removal's presence test (a non-empty filter) holds iff some line item has the id, iff `find` succeeds |
| `CartItems.FiltersPartition` | src/hooks/useCart.tsx:69-73 | the two filters split the cart: their multisets add up to the cart's, and so do their lengths |
| `CartItems.RemoveIdAbsent` | src/hooks/useCart.tsx:73 | removing an id the cart does not hold changes nothing |
| `CartItems.RemoveIdConcat` | src/hooks/useCart.tsx:73 | removal keeps the relative order: it distributes over concatenation |
| `CartItems.RemoveOnlyAt` | src/hooks/useCart.tsx:73 | with unique ids, removing the id of line item k gives the cart without exactly that line item, the rest in order |
| `CartItems.RemoveKeepsWellFormed` | src/hooks/useCart.tsx:73 | removal keeps ids unique and amounts positive |
| `CartItems.SetAmount` | src/hooks/useCart.tsx:92-94 | same length, same ids in the same order; line items with the id get the amount, every other line item keeps its amount |
| `CartItems.SetAmountAt` | src/hooks/useCart.tsx:92-94 | with unique ids, setting the amount of the id of line item k replaces that line item and nothing else |
| `CartItems.SetAmountAbsent` | src/hooks/useCart.tsx:92-94 | setting the amount of an id the cart does not hold changes nothing |
| `CartItems.SetAmountKeepsWellFormed` | src/hooks/useCart.tsx:86-94 | setting a positive amount keeps ids unique and amounts positive |
| `CartItems.AppendKeepsWellFormed` | src/hooks/useCart.tsx:42-53 | appending an amount-1 line item for an id `find` did not find keeps ids unique and amounts positive |
| `CartSteps.UpdateStep` | src/hooks/useCart.tsx:81-103 | amount <= 0: nothing changes, no notice; failed lookup: one UpdateError notice, cart and slot unchanged; within stock: the id's line items hold the amount, all else, length and order unchanged, slot equals the new cart; over stock: one OutOfStock notice, cart and slot unchanged; keeps `Synced` and `WellFormed` |
| `CartSteps.RemoveStep` | src/hooks/useCart.tsx:67-79 | absent id: one RemoveError notice, cart and slot unchanged; present id: the cart is the removing filter of the old one (every line item with the id gone, every other kept as often as before and in the same relative order), slot equals the new cart; with unique ids, exactly the one line item at its position is gone; keeps `Synced` and `WellFormed` |
| `CartSteps.AddStep` | src/hooks/useCart.tsx:40-65 | id in the cart: the update to the first matching line item's amount + 1; otherwise failed stock lookup gives one AddError, stock < 1 one OutOfStock, failed catalog lookup one AddError, each with cart and slot unchanged; else one line item (id, 1) appended after the untouched old cart, slot equals the new cart; keeps `Synced` and `WellFormed` |
| `CartSteps.UpdateReplacesItem` | src/hooks/useCart.tsx:91-94 | with unique ids, an update within stock replaces the id's line item in place by one with the new amount |
| `CartSteps.UpdateAbsentRewrites` | src/hooks/useCart.tsx:91-96 | an update within stock of an id the cart does not hold keeps the line items but writes them to the slot |
| `CartSteps.AddExistingIncrements` | src/hooks/useCart.tsx:56-60 | adding a product the well-formed cart holds, within stock, raises that line item's amount by one, raises no notice and writes the new cart to the slot |
| `CartSteps.AddExistingOutOfStock` | src/hooks/useCart.tsx:56-60 | adding a product the well-formed cart holds, beyond stock, only raises one OutOfStock notice |
| `CartSteps.AddThenRemoveRestores` | src/hooks/useCart.tsx:52-75 | for any cart that does not hold the id, adding the product within stock and then removing it gives back the original line items |
| `CartContext.CartProvider.constructor` | src/hooks/useCart.tsx:30-38 | the cart starts as the stored list, or empty when the slot is empty, and the slot reloads to it |
| `CartContext.CartProvider.UpdateProductAmount` | src/hooks/useCart.tsx:81-103 | the new cart, slot and notices are `UpdateStep` of the old ones; the slot still reloads to the cart |
| `CartContext.CartProvider.AddProduct` | src/hooks/useCart.tsx:40-65 | the new cart, slot and notices are `AddStep` of the old ones; the slot still reloads to the cart |
| `CartContext.CartProvider.RemoveProduct` | src/hooks/useCart.tsx:67-79 | the new cart, slot and notices are `RemoveStep` of the old ones; the slot still reloads to the cart |

## Left out

- React plumbing (`createContext`, `useState`, `useContext`, the provider JSX at lines 105-118 and `useCart`): it holds no cart logic.
- The HTTP client `api.get`. Its answers are parameters: the stock lookup is a `Lookup<int>`, the catalog lookup a success flag. Every failure of a lookup, whatever its cause, is `LookupFailed` or a false flag.
- The catalog record's display fields (name, price, image). The new line item takes the requested id, on the assumption that `products/{id}` answers with the record of that id.
- Storage writes never fail in the model. In the source, `localStorage.setItem` can throw (for example, when the quota is exceeded) after `setCart` has already run (lines 54-55, 74-75, 95-96). The catch then raises the notice but leaves the in-memory cart changed and the slot stale. `Synced` does not hold in that case.
- JSON serialisation and `localStorage`. The slot holds the list itself, so a stored value that does not parse, and the exception that raises on load, are not modelled.
- The notifier's message texts. Each message is a `Notice` tag.
- Asynchrony. Each operation runs to completion before the next starts. So a stale cart captured by an operation that is suspended on a lookup is not modelled. Nor is the update that `addProduct` starts without awaiting it.
- JavaScript numbers. Ids, amounts and stock are unbounded integers, so fractional, `NaN` or out-of-range amounts are not modelled.
