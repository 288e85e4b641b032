/** The cart provider: the object that holds the cart, writes it to the
    storage slot after every successful change and reports failures as
    notices. Each operation runs to completion before the next starts. */
module CartContext {
  import opened CartItems
  import opened CartSteps

  class CartProvider {
    /** The line items, in the order they were appended. */
    var cart: seq<Item>
    /** The storage slot that survives a reload. */
    var stored: Option<seq<Item>>
    /** The error notices shown to the user so far, oldest first. */
    var notices: seq<Notice>

    /** The whole state as a value. */
    function Snapshot(): (st: State)
      reads this
    {
      State(cart, stored, notices)
    }

    /** The object invariant: the storage slot reloads to the in-memory cart. */
    predicate Valid()
      reads this
    {
      Synced(Snapshot())
    }

    /** Starts a session from what the storage slot holds. */
    constructor (slot: Option<seq<Item>>)
      ensures Valid()
      ensures cart == Load(slot) && stored == slot && notices == []
    {
      cart := Load(slot);
      stored := slot;
      notices := [];
    }

    /** Sets the amount of `id`; `stock` is the answer to its stock lookup. */
    method UpdateProductAmount(id: int, amount: int, stock: Lookup<int>)
      requires Valid()
      modifies this
      ensures Valid()
      ensures Snapshot() == UpdateStep(old(Snapshot()), id, amount, stock)
      ensures WellFormed(old(cart)) ==> WellFormed(cart)
    {
      if amount <= 0 {
        return;
      }
      match stock {
        case LookupFailed =>
          notices := notices + [UpdateError];
        case Found(available) =>
          if amount <= available {
            var newCart := SetAmount(cart, id, amount);
            cart := newCart;
            stored := Some(newCart);
          } else {
            notices := notices + [OutOfStock];
          }
      }
    }

    /** Adds one unit of `id`; `stock` is the answer to its stock lookup and
        `catalogOk` says whether its catalog lookup succeeded. */
    method AddProduct(id: int, stock: Lookup<int>, catalogOk: bool)
      requires Valid()
      modifies this
      ensures Valid()
      ensures Snapshot() == AddStep(old(Snapshot()), id, stock, catalogOk)
      ensures WellFormed(old(cart)) ==> WellFormed(cart)
    {
      var productInCart := Find(cart, id);
      match productInCart {
        case Some(item) =>
          UpdateProductAmount(id, item.amount + 1, stock);
        case None =>
          match stock {
            case LookupFailed =>
              notices := notices + [AddError];
            case Found(available) =>
              if available < 1 {
                notices := notices + [OutOfStock];
                return;
              }
              if !catalogOk {
                notices := notices + [AddError];
                return;
              }
              var newCart := cart + [Item(id, 1)];
              cart := newCart;
              stored := Some(newCart);
          }
      }
    }

    /** Removes every line item with `id`. */
    method RemoveProduct(id: int)
      requires Valid()
      modifies this
      ensures Valid()
      ensures Snapshot() == RemoveStep(old(Snapshot()), id)
      ensures WellFormed(old(cart)) ==> WellFormed(cart)
    {
      var isProductInCart := |Matching(cart, id)| > 0;
      if !isProductInCart {
        notices := notices + [RemoveError];
        return;
      }
      var newCart := RemoveId(cart, id);
      cart := newCart;
      stored := Some(newCart);
    }
  }

  /** Adding a product twice and then beyond its stock, from an empty slot. */
  method AddSession()
  {
    var p := new CartProvider(None);
    p.AddProduct(7, Found(2), true);
    assert p.cart == [Item(7, 1)] && p.stored == Some(p.cart);
    p.AddProduct(7, Found(2), true);
    assert p.cart == [Item(7, 2)] && p.stored == Some(p.cart);
    p.AddProduct(7, Found(2), true);
    assert p.cart == [Item(7, 2)] && p.notices == [OutOfStock];
  }

  /** A cart reloaded as one line item of product 1 with amount 2, whose
      stock is 2: asking for 3 is refused, asking for 2 rewrites the slot. */
  method StockCeilingSession()
  {
    var p := new CartProvider(Some([Item(1, 2)]));
    p.UpdateProductAmount(1, 3, Found(2));
    assert p.cart == [Item(1, 2)] && p.notices == [OutOfStock];
    p.UpdateProductAmount(1, 2, Found(2));
    assert p.cart == [Item(1, 2)] && p.stored == Some(p.cart) && p.notices == [OutOfStock];
    p.UpdateProductAmount(1, 0, Found(2));
    assert p.notices == [OutOfStock];
  }

  /** Removing an absent product is an error; removing a present one keeps
      the others. */
  method RemoveSession()
  {
    var p := new CartProvider(Some([Item(1, 2), Item(4, 1)]));
    p.RemoveProduct(5);
    assert p.cart == [Item(1, 2), Item(4, 1)] && p.notices == [RemoveError];
    p.RemoveProduct(4);
    assert p.cart == [Item(1, 2)] && p.stored == Some(p.cart);
  }
}
