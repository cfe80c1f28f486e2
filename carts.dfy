/** The shopping-cart logic shared by the catering page and the stationery
    shop: a cart is a sequence of lines keyed by id. Adding an id already in
    the cart bumps that line's quantity; adding a new id appends a line with
    quantity 1; removing decrements a line with quantity above 1 and deletes
    it otherwise. The payload `D` is what a page copies from the catalog item
    into the line (name and price for catering, nothing for stationery). */
module Carts {
  import opened Lists

  /** One cart line: an id, the page's payload for it, and a quantity. */
  datatype Line<K, D> = Line(id: K, info: D, quantity: int)

  /** The cart invariant: ids are unique and every quantity is at least 1. */
  ghost predicate Valid<K, D>(cart: seq<Line<K, D>>)
  {
    && (forall i, j :: 0 <= i < j < |cart| ==> cart[i].id != cart[j].id)
    && (forall i :: 0 <= i < |cart| ==> cart[i].quantity >= 1)
  }

  /** `cart.find(line => line.id === id)`. */
  function Lookup<K(==), D>(cart: seq<Line<K, D>>, id: K): (r: Option<Line<K, D>>)
    ensures r.Some? ==> r.value in cart && r.value.id == id
    ensures r.None? <==> forall j :: 0 <= j < |cart| ==> cart[j].id != id
  {
    Find(cart, (l: Line<K, D>) => l.id == id)
  }

  /** `Lookup` examines the lines front to back. */
  lemma LookupCons<K, D>(cart: seq<Line<K, D>>, id: K)
    requires cart != []
    ensures Lookup(cart, id) == if cart[0].id == id then Some(cart[0]) else Lookup(cart[1..], id)
  {
    if cart[0].id != id {
      var p := (l: Line<K, D>) => l.id == id;
      match FindIndex(cart[1..], p)
      case None =>
      case Some(k) =>
        assert FindIndex(cart, p) == Some(k + 1);
    }
  }

  /** In a valid cart, the line found for an id is the one at its position. */
  lemma LookupAt<K, D>(cart: seq<Line<K, D>>, i: nat)
    requires Valid(cart) && i < |cart|
    ensures Lookup(cart, cart[i].id) == Some(cart[i])
  {
    FindFirstMatch(cart, (l: Line<K, D>) => l.id == cart[i].id, i);
  }

  /** `cart.map(line => line.id === id ? {...line, quantity: line.quantity + 1} : line)`. */
  function Increment<K(==), D>(cart: seq<Line<K, D>>, id: K): seq<Line<K, D>>
  {
    seq(|cart|, i requires 0 <= i < |cart| =>
      if cart[i].id == id then cart[i].(quantity := cart[i].quantity + 1) else cart[i])
  }

  /** `cart.map(line => line.id === id ? {...line, quantity: line.quantity - 1} : line)`. */
  function Decrement<K(==), D>(cart: seq<Line<K, D>>, id: K): seq<Line<K, D>>
  {
    seq(|cart|, i requires 0 <= i < |cart| =>
      if cart[i].id == id then cart[i].(quantity := cart[i].quantity - 1) else cart[i])
  }

  /** `cart.filter(line => line.id !== id)`: the lines without the id, in
      their order and as often as they occur. */
  function Drop<K(==,!new), D(!new)>(cart: seq<Line<K, D>>, id: K): (r: seq<Line<K, D>>)
    ensures forall l :: l in r <==> l in cart && l.id != id
    ensures SubsequenceOf(r, cart)
    ensures forall l :: multiset(r)[l] == if l.id != id then multiset(cart)[l] else 0
  {
    var p := (l: Line<K, D>) => l.id != id;
    FilterIsSubsequence(cart, p);
    FilterCounts(cart, p);
    Filter(cart, p)
  }

  /** In a valid cart, dropping the id of line `k` removes exactly that line. */
  lemma DropAt<K(!new), D(!new)>(cart: seq<Line<K, D>>, k: nat)
    requires Valid(cart) && k < |cart|
    ensures Drop(cart, cart[k].id) == cart[..k] + cart[k + 1..]
  {
    var p := (l: Line<K, D>) => l.id != cart[k].id;
    assert cart == cart[..k] + ([cart[k]] + cart[k + 1..]);
    FilterConcat(cart[..k], [cart[k]] + cart[k + 1..], p);
    FilterConcat([cart[k]], cart[k + 1..], p);
    FilterAllPass(cart[..k], p);
    FilterAllPass(cart[k + 1..], p);
    assert Filter([cart[k]], p) == [];
  }

  /** Adding an item: bump the existing line for `id`, or append a new line
      with quantity 1 at the end. */
  function Add<K(==), D>(cart: seq<Line<K, D>>, id: K, info: D): (r: seq<Line<K, D>>)
    ensures Lookup(cart, id).Some? ==>
              && |r| == |cart|
              && (forall i :: 0 <= i < |cart| ==>
                    && r[i].id == cart[i].id && r[i].info == cart[i].info
                    && r[i].quantity == cart[i].quantity + (if cart[i].id == id then 1 else 0))
    ensures Lookup(cart, id).None? ==> r == cart + [Line(id, info, 1)]
  {
    if Lookup(cart, id).Some? then Increment(cart, id) else cart + [Line(id, info, 1)]
  }

  /** Removing one unit of `id`: decrement a line whose quantity exceeds 1,
      otherwise delete every line with that id (none, when it is absent). */
  function Remove<K(==,!new), D(!new)>(cart: seq<Line<K, D>>, id: K): (r: seq<Line<K, D>>)
    ensures Lookup(cart, id).None? ==> r == cart
    ensures Lookup(cart, id).Some? && Lookup(cart, id).value.quantity > 1 ==>
              && |r| == |cart|
              && (forall i :: 0 <= i < |cart| ==>
                    && r[i].id == cart[i].id && r[i].info == cart[i].info
                    && r[i].quantity == cart[i].quantity - (if cart[i].id == id then 1 else 0))
    ensures Lookup(cart, id).Some? && Lookup(cart, id).value.quantity <= 1 ==>
              && (forall l :: l in r <==> l in cart && l.id != id)
              && SubsequenceOf(r, cart)
              && (forall l :: multiset(r)[l] == if l.id != id then multiset(cart)[l] else 0)
  {
    var found := Lookup(cart, id);
    if found.Some? && found.value.quantity > 1 then Decrement(cart, id)
    else
      assert found.None? ==> Drop(cart, id) == cart by {
        if found.None? { FilterAllPass(cart, (l: Line<K, D>) => l.id != id); }
      }
      Drop(cart, id)
  }

  /** In a valid cart, removing the last unit of line `k` deletes exactly that
      line and keeps the others in order. */
  lemma RemoveDeletesLine<K(!new), D(!new)>(cart: seq<Line<K, D>>, k: nat)
    requires Valid(cart) && k < |cart| && cart[k].quantity <= 1
    ensures Remove(cart, cart[k].id) == cart[..k] + cart[k + 1..]
  {
    LookupAt(cart, k);
    DropAt(cart, k);
  }

  /** `cart.reduce((total, line) => total + weight(line) * line.quantity, 0)`. */
  function Sum<K, D>(cart: seq<Line<K, D>>, weight: D -> int): int
  {
    if cart == [] then 0 else weight(cart[0].info) * cart[0].quantity + Sum(cart[1..], weight)
  }

  /** Adding keeps the cart invariant. */
  lemma AddPreservesValid<K, D>(cart: seq<Line<K, D>>, id: K, info: D)
    requires Valid(cart)
    ensures Valid(Add(cart, id, info))
  {
  }

  /** Filtering a valid cart keeps it valid. */
  lemma {:induction false} FilterPreservesValid<K(!new), D(!new)>(cart: seq<Line<K, D>>, p: Line<K, D> -> bool)
    requires Valid(cart)
    ensures Valid(Filter(cart, p))
  {
    if cart != [] {
      assert Valid(cart[1..]);
      FilterPreservesValid(cart[1..], p);
      assert Filter(cart, p) == if p(cart[0]) then [cart[0]] + Filter(cart[1..], p) else Filter(cart[1..], p);
      forall l | l in Filter(cart[1..], p)
        ensures l.id != cart[0].id
      {
        var j :| 0 <= j < |cart[1..]| && cart[1..][j] == l;
        assert cart[j + 1] == l;
      }
    }
  }

  /** Dropping an id keeps the invariant. */
  lemma DropPreservesValid<K(!new), D(!new)>(cart: seq<Line<K, D>>, id: K)
    requires Valid(cart)
    ensures Valid(Drop(cart, id))
  {
    FilterPreservesValid(cart, (l: Line<K, D>) => l.id != id);
  }

  /** Removing keeps the cart invariant. */
  lemma RemovePreservesValid<K(!new), D(!new)>(cart: seq<Line<K, D>>, id: K)
    requires Valid(cart)
    ensures Valid(Remove(cart, id))
  {
    var found := Lookup(cart, id);
    if found.Some? && found.value.quantity > 1 {
      assert Remove(cart, id) == Decrement(cart, id);
    } else if found.Some? {
      DropPreservesValid(cart, id);
    }
  }

  /** Adding then removing the same id gives back exactly the original cart. */
  lemma RemoveAfterAdd<K(!new), D(!new)>(cart: seq<Line<K, D>>, id: K, info: D)
    requires Valid(cart)
    ensures Remove(Add(cart, id, info), id) == cart
  {
    var added := Add(cart, id, info);
    match Lookup(cart, id)
    case Some(line) =>
      var k :| 0 <= k < |cart| && cart[k] == line;
      LookupAt(cart, k);
      AddPreservesValid(cart, id, info);
      LookupAt(added, k);
      assert Lookup(added, id) == Some(added[k]);
      assert added[k].quantity > 1;
      assert Remove(added, id) == Decrement(added, id);
    case None =>
      var p := (l: Line<K, D>) => l.id != id;
      AddPreservesValid(cart, id, info);
      LookupAt(added, |cart|);
      assert Remove(added, id) == Filter(cart + [Line(id, info, 1)], p);
      FilterConcat(cart, [Line(id, info, 1)], p);
      FilterAllPass(cart, p);
      assert Filter([Line(id, info, 1)], p) == [];
  }

  /** The sum over a cart with one more line at the end grows by that line. */
  lemma {:induction false} SumAppend<K, D>(cart: seq<Line<K, D>>, line: Line<K, D>, weight: D -> int)
    ensures Sum(cart + [line], weight) == Sum(cart, weight) + weight(line.info) * line.quantity
  {
    if cart == [] {
      assert [] + [line] == [line];
    } else {
      assert (cart + [line])[1..] == cart[1..] + [line];
      SumAppend(cart[1..], line, weight);
    }
  }

  /** Bumping a line in a valid cart raises the sum by that line's weight. */
  lemma {:induction false} SumIncrement<K, D>(cart: seq<Line<K, D>>, id: K, weight: D -> int)
    requires Valid(cart) && Lookup(cart, id).Some?
    ensures Sum(Increment(cart, id), weight) == Sum(cart, weight) + weight(Lookup(cart, id).value.info)
  {
    LookupCons(cart, id);
    var inc := Increment(cart, id);
    assert inc[1..] == Increment(cart[1..], id);
    if cart[0].id == id {
      assert Increment(cart[1..], id) == cart[1..];
    } else {
      SumIncrement(cart[1..], id, weight);
    }
  }

  /** Decrementing a line in a valid cart lowers the sum by that line's weight. */
  lemma {:induction false} SumDecrement<K, D>(cart: seq<Line<K, D>>, id: K, weight: D -> int)
    requires Valid(cart) && Lookup(cart, id).Some?
    ensures Sum(Decrement(cart, id), weight) == Sum(cart, weight) - weight(Lookup(cart, id).value.info)
  {
    LookupCons(cart, id);
    var dec := Decrement(cart, id);
    assert dec[1..] == Decrement(cart[1..], id);
    if cart[0].id == id {
      assert Decrement(cart[1..], id) == cart[1..];
    } else {
      SumDecrement(cart[1..], id, weight);
    }
  }

  /** Dropping the line of a present id in a valid cart lowers the sum by that whole line. */
  lemma {:induction false} SumDrop<K(!new), D(!new)>(cart: seq<Line<K, D>>, id: K, weight: D -> int)
    requires Valid(cart) && Lookup(cart, id).Some?
    ensures Sum(Drop(cart, id), weight)
            == Sum(cart, weight) - weight(Lookup(cart, id).value.info) * Lookup(cart, id).value.quantity
  {
    var p := (l: Line<K, D>) => l.id != id;
    LookupCons(cart, id);
    assert Drop(cart, id) == if p(cart[0]) then [cart[0]] + Drop(cart[1..], id) else Drop(cart[1..], id);
    if cart[0].id == id {
      FilterAllPass(cart[1..], p);
    } else {
      SumDrop(cart[1..], id, weight);
    }
  }

  /** Every add moves the sum up by exactly one unit of the added item: the
      weight of the line already in the cart, or of the new payload. */
  lemma SumAfterAdd<K, D>(cart: seq<Line<K, D>>, id: K, info: D, weight: D -> int)
    requires Valid(cart)
    ensures Sum(Add(cart, id, info), weight) == Sum(cart, weight) +
              (match Lookup(cart, id) case Some(line) => weight(line.info) case None => weight(info))
  {
    if Lookup(cart, id).Some? {
      SumIncrement(cart, id, weight);
    } else {
      SumAppend(cart, Line(id, info, 1), weight);
    }
  }

  /** Removing a present id moves the sum down by exactly one unit of it;
      removing an absent id leaves it alone. */
  lemma SumAfterRemove<K(!new), D(!new)>(cart: seq<Line<K, D>>, id: K, weight: D -> int)
    requires Valid(cart)
    ensures Sum(Remove(cart, id), weight) == Sum(cart, weight) -
              (match Lookup(cart, id) case Some(line) => weight(line.info) case None => 0)
  {
    match Lookup(cart, id)
    case Some(line) =>
      if line.quantity > 1 {
        SumDecrement(cart, id, weight);
      } else {
        SumDrop(cart, id, weight);
      }
    case None =>
  }
}
