/** Line items of the RocketShoes cart and the list transforms the cart
    operations apply to them: `find` (lookup by id), the two `filter`s
    (matching ids, and every other id) and the `map` that sets one amount.
    The display fields of a product (name, price, image) play no part in
    this logic and are not modelled. */
module CartItems {

  /** A line item: a product id and how many of that product the cart holds. */
  datatype Item = Item(id: int, amount: int)

  datatype Option<T> = None | Some(value: T)

  /** Some line item of `c` carries `id`. */
  predicate HasId(c: seq<Item>, id: int)
  {
    exists i :: 0 <= i < |c| && c[i].id == id
  }

  /** No two line items share an id. */
  predicate UniqueIds(c: seq<Item>)
  {
    forall i, j :: 0 <= i < j < |c| ==> c[i].id != c[j].id
  }

  /** Every line item holds at least one unit. */
  predicate PositiveAmounts(c: seq<Item>)
  {
    forall i :: 0 <= i < |c| ==> c[i].amount >= 1
  }

  /** The cart invariant: ids are unique and every amount is at least 1. */
  predicate WellFormed(c: seq<Item>)
  {
    UniqueIds(c) && PositiveAmounts(c)
  }

  /** `cart.find(product => product.id === id)`: the first line item with `id`. */
  function Find(c: seq<Item>, id: int): (r: Option<Item>)
    ensures r.Some? ==> r.value in c && r.value.id == id
    ensures r.None? <==> !HasId(c, id)
  {
    if c == [] then None
    else if c[0].id == id then Some(c[0])
    else
      var r := Find(c[1..], id);
      assert HasId(c, id) ==> HasId(c[1..], id) by {
        if HasId(c, id) {
          var i :| 0 <= i < |c| && c[i].id == id;
          assert c[1..][i - 1].id == id;
        }
      }
      assert HasId(c[1..], id) ==> HasId(c, id) by {
        if HasId(c[1..], id) {
          var i :| 0 <= i < |c[1..]| && c[1..][i].id == id;
          assert c[i + 1].id == id;
        }
      }
      r
  }

  /** `cart.filter(product => product.id === id)`: the line items with `id`, in order. */
  function Matching(c: seq<Item>, id: int): (r: seq<Item>)
  {
    if c == [] then []
    else if c[0].id == id then [c[0]] + Matching(c[1..], id)
    else Matching(c[1..], id)
  }

  /** `cart.filter(product => product.id !== id)`: the line items without `id`, in order. */
  function RemoveId(c: seq<Item>, id: int): (r: seq<Item>)
  {
    if c == [] then []
    else if c[0].id == id then RemoveId(c[1..], id)
    else [c[0]] + RemoveId(c[1..], id)
  }

  /** `cart.map(product => product.id === id ? { ...product, amount } : product)`:
      every line item with `id` gets `amount`, the rest stay as they are. */
  function SetAmount(c: seq<Item>, id: int, amount: int): (r: seq<Item>)
    ensures |r| == |c|
    ensures forall i :: 0 <= i < |c| ==> r[i].id == c[i].id
    ensures forall i :: 0 <= i < |c| ==>
      r[i].amount == if c[i].id == id then amount else c[i].amount
  {
    if c == [] then []
    else [if c[0].id == id then c[0].(amount := amount) else c[0]] + SetAmount(c[1..], id, amount)
  }

  /** The matching filter keeps every line item with `id`, as many times as
      the cart holds it, and nothing else. */
  lemma {:induction false} MatchingCounts(c: seq<Item>, id: int)
    ensures forall x :: multiset(Matching(c, id))[x] == if x.id == id then multiset(c)[x] else 0
  {
    if c != [] {
      assert c == [c[0]] + c[1..];
      MatchingCounts(c[1..], id);
    }
  }

  /** The removing filter keeps every line item without `id`, as many times
      as the cart holds it, and nothing else. */
  lemma {:induction false} RemoveIdCounts(c: seq<Item>, id: int)
    ensures forall x :: multiset(RemoveId(c, id))[x] == if x.id == id then 0 else multiset(c)[x]
  {
    if c != [] {
      assert c == [c[0]] + c[1..];
      RemoveIdCounts(c[1..], id);
    }
  }

  /** `find` returns the FIRST line item carrying `id`. */
  lemma {:induction false} FindFirst(c: seq<Item>, id: int, k: int)
    requires 0 <= k < |c| && c[k].id == id
    requires forall j :: 0 <= j < k ==> c[j].id != id
    ensures Find(c, id) == Some(c[k])
  {
    if k > 0 {
      FindFirst(c[1..], id, k - 1);
    }
  }

  /** In a cart with unique ids, `find` returns the one line item carrying `id`. */
  lemma FindUnique(c: seq<Item>, id: int, k: int)
    requires UniqueIds(c)
    requires 0 <= k < |c| && c[k].id == id
    ensures Find(c, id) == Some(c[k])
  {
    FindFirst(c, id, k);
  }

  /** The presence test of removal (a non-empty `filter`) and the one of
      adding (a successful `find`) agree. */
  lemma MatchingNonEmpty(c: seq<Item>, id: int)
    ensures |Matching(c, id)| > 0 <==> HasId(c, id)
    ensures |Matching(c, id)| > 0 <==> Find(c, id).Some?
  {
    var m := Matching(c, id);
    MatchingCounts(c, id);
    if HasId(c, id) {
      var i :| 0 <= i < |c| && c[i].id == id;
      assert c[i] in multiset(c);
      assert c[i] in multiset(m);
    }
    if |m| > 0 {
      assert m[0] in multiset(m);
      assert m[0] in multiset(c);
      var i :| 0 <= i < |c| && c[i] == m[0];
    }
  }

  /** The two filters split the cart: every line item goes to exactly one of them. */
  lemma FiltersPartition(c: seq<Item>, id: int)
    ensures multiset(Matching(c, id)) + multiset(RemoveId(c, id)) == multiset(c)
    ensures |Matching(c, id)| + |RemoveId(c, id)| == |c|
  {
    var m, r := Matching(c, id), RemoveId(c, id);
    MatchingCounts(c, id);
    RemoveIdCounts(c, id);
    assert forall x :: (multiset(m) + multiset(r))[x] == multiset(c)[x];
    assert multiset(m) + multiset(r) == multiset(c);
    assert |multiset(m) + multiset(r)| == |multiset(c)|;
  }

  /** Removing an id that is not in the cart changes nothing. */
  lemma {:induction false} RemoveIdAbsent(c: seq<Item>, id: int)
    requires !HasId(c, id)
    ensures RemoveId(c, id) == c
  {
    if c != [] {
      assert c[0].id != id;
      RemoveIdAbsent(c[1..], id);
      assert c == [c[0]] + c[1..];
    }
  }

  /** Removal keeps the relative order: it distributes over concatenation. */
  lemma {:induction false} RemoveIdConcat(a: seq<Item>, b: seq<Item>, id: int)
    ensures RemoveId(a + b, id) == RemoveId(a, id) + RemoveId(b, id)
  {
    if a == [] {
      assert a + b == b;
    } else {
      var ab := a + b;
      assert ab != [] && ab[0] == a[0] && ab[1..] == a[1..] + b;
      RemoveIdConcat(a[1..], b, id);
      var rest := RemoveId(a[1..], id) + RemoveId(b, id);
      if a[0].id == id {
        assert RemoveId(ab, id) == RemoveId(a[1..] + b, id);
        assert RemoveId(a, id) == RemoveId(a[1..], id);
      } else {
        assert RemoveId(ab, id) == [a[0]] + rest;
        assert RemoveId(a, id) == [a[0]] + RemoveId(a[1..], id);
        assert [a[0]] + rest == ([a[0]] + RemoveId(a[1..], id)) + RemoveId(b, id);
      }
    }
  }

  /** Every line item left by removal was in the cart and does not carry `id`. */
  lemma InRemoveId(c: seq<Item>, id: int, x: Item)
    requires x in RemoveId(c, id)
    ensures x in c && x.id != id
  {
    RemoveIdCounts(c, id);
    assert x in multiset(RemoveId(c, id));
    assert x in multiset(c);
  }

  /** Unique ids of a cart that starts with `h`, in terms of the rest of it. */
  lemma UniqueIdsCons(h: Item, t: seq<Item>)
    ensures UniqueIds([h] + t) <==> UniqueIds(t) && forall x :: x in t ==> x.id != h.id
  {
    var c := [h] + t;
    assert forall i :: 0 <= i < |t| ==> c[i + 1] == t[i];
    if UniqueIds(t) && forall x :: x in t ==> x.id != h.id {
      forall i, j | 0 <= i < j < |c| ensures c[i].id != c[j].id {
        if i == 0 {
          assert c[j] == t[j - 1];
        } else {
          assert c[i] == t[i - 1] && c[j] == t[j - 1];
        }
      }
    }
    if UniqueIds(c) {
      forall x | x in t ensures x.id != h.id {
        var j :| 0 <= j < |t| && t[j] == x;
        assert c[0] == h && c[j + 1] == x;
      }
    }
  }

  /** In a cart with unique ids, removing the id of line item `k` removes
      exactly that line item and keeps every other one in order. */
  lemma RemoveOnlyAt(c: seq<Item>, id: int, k: int)
    requires UniqueIds(c)
    requires 0 <= k < |c| && c[k].id == id
    ensures RemoveId(c, id) == c[..k] + c[k + 1..]
  {
    var pre, post := c[..k], c[k + 1..];
    assert c == pre + ([c[k]] + post);
    assert !HasId(pre, id) by {
      forall i | 0 <= i < |pre| ensures pre[i].id != id {
        assert pre[i] == c[i];
      }
    }
    assert !HasId(post, id) by {
      forall i | 0 <= i < |post| ensures post[i].id != id {
        assert post[i] == c[k + 1 + i];
      }
    }
    calc {
      RemoveId(c, id);
      { RemoveIdConcat(pre, [c[k]] + post, id); }
      RemoveId(pre, id) + RemoveId([c[k]] + post, id);
      { RemoveIdAbsent(pre, id); assert ([c[k]] + post)[1..] == post; }
      pre + RemoveId(post, id);
      { RemoveIdAbsent(post, id); }
      pre + post;
    }
  }

  /** Removal keeps the cart invariant. */
  lemma {:induction false} RemoveKeepsWellFormed(c: seq<Item>, id: int)
    requires WellFormed(c)
    ensures WellFormed(RemoveId(c, id))
  {
    var r := RemoveId(c, id);
    forall i | 0 <= i < |r| ensures r[i].amount >= 1 {
      InRemoveId(c, id, r[i]);
    }
    if c != [] {
      var tail := c[1..];
      assert c == [c[0]] + tail;
      UniqueIdsCons(c[0], tail);
      RemoveKeepsWellFormed(tail, id);
      var rt := RemoveId(tail, id);
      if c[0].id != id {
        forall x | x in rt ensures x.id != c[0].id {
          InRemoveId(tail, id, x);
        }
        UniqueIdsCons(c[0], rt);
      }
    }
  }

  /** In a cart with unique ids, setting the amount of `id` replaces line
      item `k` and nothing else. */
  lemma SetAmountAt(c: seq<Item>, id: int, amount: int, k: int)
    requires UniqueIds(c)
    requires 0 <= k < |c| && c[k].id == id
    ensures SetAmount(c, id, amount) == c[k := Item(id, amount)]
  {
    var r := SetAmount(c, id, amount);
    forall i | 0 <= i < |c| ensures r[i] == c[k := Item(id, amount)][i] {
      if i != k {
        assert c[i].id != id;
      }
    }
  }

  /** Setting the amount of an id that is not in the cart changes nothing. */
  lemma SetAmountAbsent(c: seq<Item>, id: int, amount: int)
    requires !HasId(c, id)
    ensures SetAmount(c, id, amount) == c
  {
    var r := SetAmount(c, id, amount);
    forall i | 0 <= i < |c| ensures r[i] == c[i] {
      assert c[i].id != id;
    }
  }

  /** Setting a positive amount keeps the cart invariant. */
  lemma SetAmountKeepsWellFormed(c: seq<Item>, id: int, amount: int)
    requires WellFormed(c) && amount >= 1
    ensures WellFormed(SetAmount(c, id, amount))
  {
  }

  /** Appending a new line item with amount 1 for an id not yet in the cart
      keeps the cart invariant. */
  lemma AppendKeepsWellFormed(c: seq<Item>, id: int)
    requires WellFormed(c) && !HasId(c, id)
    ensures WellFormed(c + [Item(id, 1)])
  {
    var r := c + [Item(id, 1)];
    forall i, j | 0 <= i < j < |r| ensures r[i].id != r[j].id {
      if j == |c| {
        assert r[i] == c[i];
      }
    }
  }
}
