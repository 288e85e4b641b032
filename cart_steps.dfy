/** The cart as a state machine over values: the in-memory cart, the copy in
    the storage slot and the log of user-facing error notices, and the three
    transitions `addProduct`, `removeProduct` and `updateProductAmount`. The
    answers of the remote stock and catalog services are inputs. */
module CartSteps {
  import opened CartItems

  /** The user-facing error notices, one per message the cart can raise. */
  datatype Notice =
    | OutOfStock   // the requested quantity is out of stock
    | AddError     // adding the product failed
    | RemoveError  // removing the product failed
    | UpdateError  // changing the quantity failed

  /** The answer of a remote lookup: a value, or a failed request. */
  datatype Lookup<T> = Found(value: T) | LookupFailed

  /** The cart state: the line items, the storage slot (empty until the
      first successful change when nothing was stored before) and the
      notices raised so far, oldest first. */
  datatype State = State(cart: seq<Item>, stored: Option<seq<Item>>, notices: seq<Notice>)

  /** The cart a session starts from: what the storage slot holds, or no
      line items when the slot is empty. */
  function Load(slot: Option<seq<Item>>): (c: seq<Item>)
  {
    match slot
    case Some(items) => items
    case None => []
  }

  /** Reloading from the storage slot gives back the in-memory cart. */
  predicate Synced(s: State)
  {
    Load(s.stored) == s.cart
  }

  /** `updateProductAmount({ productId: id, amount })`, where `stock` is the
      answer to the stock lookup for `id`. */
  function UpdateStep(s: State, id: int, amount: int, stock: Lookup<int>): (r: State)
    // A non-positive amount is silently ignored.
    ensures amount <= 0 ==> r == s
    // A failed lookup leaves the cart and the slot alone and raises one notice.
    ensures amount > 0 && stock.LookupFailed? ==>
      r.cart == s.cart && r.stored == s.stored && r.notices == s.notices + [UpdateError]
    // Within stock: every line item with `id` holds `amount`, the others,
    // the ids, the order and the length are unchanged, and the slot is written.
    ensures amount > 0 && stock.Found? && amount <= stock.value ==>
      && |r.cart| == |s.cart|
      && (forall i :: 0 <= i < |s.cart| ==> r.cart[i].id == s.cart[i].id)
      && (forall i :: 0 <= i < |s.cart| && s.cart[i].id == id ==> r.cart[i].amount == amount)
      && (forall i :: 0 <= i < |s.cart| && s.cart[i].id != id ==> r.cart[i] == s.cart[i])
      && r.stored == Some(r.cart) && r.notices == s.notices
    // Beyond stock: nothing changes but one out-of-stock notice.
    ensures amount > 0 && stock.Found? && amount > stock.value ==>
      r.cart == s.cart && r.stored == s.stored && r.notices == s.notices + [OutOfStock]
    ensures Synced(s) ==> Synced(r)
    ensures WellFormed(s.cart) ==> WellFormed(r.cart)
  {
    if amount <= 0 then s
    else
      match stock
      case LookupFailed => s.(notices := s.notices + [UpdateError])
      case Found(available) =>
        if amount <= available then
          var c := SetAmount(s.cart, id, amount);
          State(c, Some(c), s.notices)
        else
          s.(notices := s.notices + [OutOfStock])
  }

  /** `removeProduct(id)`. */
  function RemoveStep(s: State, id: int): (r: State)
    // An id that is not in the cart is an error: one notice, nothing else changes.
    ensures !HasId(s.cart, id) ==>
      r.cart == s.cart && r.stored == s.stored && r.notices == s.notices + [RemoveError]
    // Otherwise the cart is the removing filter of the old one: every line
    // item with `id` is gone, every other one is kept as often as before and
    // in the same relative order (`RemoveIdConcat`), and the slot is written.
    ensures HasId(s.cart, id) ==>
      && r.cart == RemoveId(s.cart, id)
      && (forall x :: multiset(r.cart)[x] == if x.id == id then 0 else multiset(s.cart)[x])
      && r.stored == Some(r.cart) && r.notices == s.notices
    // With unique ids, that is exactly the one line item at its position.
    ensures UniqueIds(s.cart) ==>
      forall k :: 0 <= k < |s.cart| && s.cart[k].id == id ==>
        r.cart == s.cart[..k] + s.cart[k + 1..]
    ensures Synced(s) ==> Synced(r)
    ensures WellFormed(s.cart) ==> WellFormed(r.cart)
  {
    MatchingNonEmpty(s.cart, id);
    if |Matching(s.cart, id)| == 0 then
      s.(notices := s.notices + [RemoveError])
    else
      var c := RemoveId(s.cart, id);
      RemoveIdCounts(s.cart, id);
      assert UniqueIds(s.cart) ==>
        forall k :: 0 <= k < |s.cart| && s.cart[k].id == id ==> c == s.cart[..k] + s.cart[k + 1..] by {
        if UniqueIds(s.cart) {
          forall k | 0 <= k < |s.cart| && s.cart[k].id == id
            ensures c == s.cart[..k] + s.cart[k + 1..]
          {
            RemoveOnlyAt(s.cart, id, k);
          }
        }
      }
      assert WellFormed(s.cart) ==> WellFormed(c) by {
        if WellFormed(s.cart) {
          RemoveKeepsWellFormed(s.cart, id);
        }
      }
      State(c, Some(c), s.notices)
  }

  /** `addProduct(id)`: `stock` answers the stock lookup for `id` and
      `catalogOk` says whether the catalog lookup for `id` succeeded. */
  function AddStep(s: State, id: int, stock: Lookup<int>, catalogOk: bool): (r: State)
    // Already in the cart: the quantity update to one more unit than the
    // first line item with `id` holds.
    ensures HasId(s.cart, id) ==>
      r == UpdateStep(s, id, Find(s.cart, id).value.amount + 1, stock)
    // Not in the cart, failed stock lookup: one error notice, nothing else changes.
    ensures !HasId(s.cart, id) && stock.LookupFailed? ==>
      r.cart == s.cart && r.stored == s.stored && r.notices == s.notices + [AddError]
    // Not in the cart, no unit in stock: one out-of-stock notice, nothing else changes.
    ensures !HasId(s.cart, id) && stock.Found? && stock.value < 1 ==>
      r.cart == s.cart && r.stored == s.stored && r.notices == s.notices + [OutOfStock]
    // Not in the cart, in stock, failed catalog lookup: one error notice.
    ensures !HasId(s.cart, id) && stock.Found? && stock.value >= 1 && !catalogOk ==>
      r.cart == s.cart && r.stored == s.stored && r.notices == s.notices + [AddError]
    // Not in the cart, in stock: one new line item with amount 1 at the end,
    // the old line items untouched before it, and the slot written.
    ensures !HasId(s.cart, id) && stock.Found? && stock.value >= 1 && catalogOk ==>
      && |r.cart| == |s.cart| + 1
      && r.cart[..|s.cart|] == s.cart
      && r.cart[|s.cart|] == Item(id, 1)
      && r.stored == Some(r.cart) && r.notices == s.notices
    ensures Synced(s) ==> Synced(r)
    ensures WellFormed(s.cart) ==> WellFormed(r.cart)
  {
    match Find(s.cart, id)
    case Some(item) =>
      UpdateStep(s, id, item.amount + 1, stock)
    case None =>
      match stock
      case LookupFailed => s.(notices := s.notices + [AddError])
      case Found(available) =>
        if available < 1 then
          s.(notices := s.notices + [OutOfStock])
        else if !catalogOk then
          s.(notices := s.notices + [AddError])
        else
          var c := s.cart + [Item(id, 1)];
          assert WellFormed(s.cart) ==> WellFormed(c) by {
            if WellFormed(s.cart) {
              AppendKeepsWellFormed(s.cart, id);
            }
          }
          State(c, Some(c), s.notices)
  }

  /** Within stock, updating a product of a cart with unique ids replaces its
      one line item in place. */
  lemma UpdateReplacesItem(s: State, id: int, amount: int, stock: Lookup<int>, k: int)
    requires UniqueIds(s.cart) && 0 <= k < |s.cart| && s.cart[k].id == id
    requires stock.Found? && 0 < amount <= stock.value
    ensures UpdateStep(s, id, amount, stock).cart == s.cart[k := Item(id, amount)]
  {
    SetAmountAt(s.cart, id, amount, k);
  }

  /** Within stock, updating a product that is not in the cart leaves the
      line items as they are but still writes them to the storage slot. */
  lemma UpdateAbsentRewrites(s: State, id: int, amount: int, stock: Lookup<int>)
    requires !HasId(s.cart, id)
    requires stock.Found? && 0 < amount <= stock.value
    ensures UpdateStep(s, id, amount, stock) == State(s.cart, Some(s.cart), s.notices)
  {
    SetAmountAbsent(s.cart, id, amount);
  }

  /** Adding a product the cart already holds raises its amount by one when
      the stock allows it, raises no notice and writes the new cart to the
      storage slot. */
  lemma AddExistingIncrements(s: State, id: int, stock: Lookup<int>, catalogOk: bool, k: int)
    requires WellFormed(s.cart) && 0 <= k < |s.cart| && s.cart[k].id == id
    requires stock.Found? && s.cart[k].amount + 1 <= stock.value
    ensures AddStep(s, id, stock, catalogOk).cart == s.cart[k := Item(id, s.cart[k].amount + 1)]
    ensures AddStep(s, id, stock, catalogOk).notices == s.notices
    ensures AddStep(s, id, stock, catalogOk).stored == Some(AddStep(s, id, stock, catalogOk).cart)
  {
    FindUnique(s.cart, id, k);
    assert HasId(s.cart, id);
    var a := s.cart[k].amount + 1;
    assert AddStep(s, id, stock, catalogOk) == UpdateStep(s, id, a, stock);
    UpdateReplacesItem(s, id, a, stock, k);
  }

  /** Adding a product the cart already holds beyond its stock raises one
      out-of-stock notice and changes nothing else. */
  lemma AddExistingOutOfStock(s: State, id: int, stock: Lookup<int>, catalogOk: bool, k: int)
    requires WellFormed(s.cart) && 0 <= k < |s.cart| && s.cart[k].id == id
    requires stock.Found? && s.cart[k].amount + 1 > stock.value
    ensures AddStep(s, id, stock, catalogOk) == s.(notices := s.notices + [OutOfStock])
  {
    FindUnique(s.cart, id, k);
  }

  /** Adding a product that is not in the cart and then removing it gives
      back the line items the cart started with. */
  lemma AddThenRemoveRestores(s: State, id: int, stock: Lookup<int>)
    requires !HasId(s.cart, id)
    requires stock.Found? && stock.value >= 1
    ensures RemoveStep(AddStep(s, id, stock, true), id).cart == s.cart
  {
    var a := AddStep(s, id, stock, true);
    assert a.cart == s.cart + [Item(id, 1)];
    assert a.cart[|s.cart|].id == id;
    RemoveIdConcat(s.cart, [Item(id, 1)], id);
    RemoveIdAbsent(s.cart, id);
    assert RemoveId([Item(id, 1)], id) == [];
  }
}
