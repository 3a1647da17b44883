/** The cart data-access functions of src/dao/cart.dao.js. Unlike the routes, this layer keeps a
    cart's products as a bare list of product ids: it appends without merging and filters on
    removal. */
module CartDao {
  import opened Wrappers
  import CartModel

  type CartId = string
  type ProductId = string

  /** The product references of a list of line items, in order. */
  function Refs(items: seq<CartModel.LineItem>): (r: seq<ProductId>)
    ensures |r| == |items|
    ensures forall i :: 0 <= i < |items| ==> r[i] == items[i].product
  {
    seq(|items|, i requires 0 <= i < |items| => items[i].product)
  }

  /** `filter` keeping every id different from `x`, in order. */
  function RemoveAll(ids: seq<ProductId>, x: ProductId): (r: seq<ProductId>)
    ensures x !in r
    ensures forall y :: y in r ==> y in ids
  {
    if ids == [] then []
    else (if ids[0] == x then [] else [ids[0]]) + RemoveAll(ids[1..], x)
  }

  /** Removal keeps the other ids in order: it distributes over concatenation. */
  lemma {:induction false} RemoveAllAppend(a: seq<ProductId>, b: seq<ProductId>, x: ProductId)
    ensures RemoveAll(a + b, x) == RemoveAll(a, x) + RemoveAll(b, x)
  {
    if a == [] {
      assert a + b == b;
    } else {
      assert (a + b)[0] == a[0] && (a + b)[1..] == a[1..] + b;
      RemoveAllAppend(a[1..], b, x);
    }
  }

  /** Removal drops exactly the occurrences of `x`: every other id keeps its count. */
  lemma {:induction false} RemoveAllCounts(ids: seq<ProductId>, x: ProductId, y: ProductId)
    ensures multiset(RemoveAll(ids, x))[y] == if y == x then 0 else multiset(ids)[y]
  {
    if ids != [] {
      RemoveAllCounts(ids[1..], x, y);
      assert ids == [ids[0]] + ids[1..];
    }
  }

  /** Removing an id the cart does not hold leaves the list as it was. */
  lemma {:induction false} RemoveAbsent(ids: seq<ProductId>, x: ProductId)
    requires x !in ids
    ensures RemoveAll(ids, x) == ids
  {
    if ids != [] {
      RemoveAbsent(ids[1..], x);
      assert ids == [ids[0]] + ids[1..];
    }
  }

  class CartCollection {
    var carts: map<CartId, seq<ProductId>>

    constructor (carts0: map<CartId, seq<ProductId>>)
      ensures carts == carts0
    {
      carts := carts0;
    }

    /** `save` of a new document: stored under `id`, as its list of product ids, exactly when it
        passes the cart schema. */
    method SaveNew(id: CartId, doc: CartModel.Cart) returns (saved: bool)
      modifies this
      ensures saved == CartModel.CartValid(doc)
      ensures carts == if saved then old(carts)[id := Refs(doc.products)] else old(carts)
    {
      saved := CartModel.CartValid(doc);
      if saved {
        carts := carts[id := Refs(doc.products)];
      }
    }

    /** `createCart`: the new document has no products and no `user`, which the schema requires,
        so its save always fails and nothing is stored. */
    method CreateCart(newId: CartId) returns (r: Result<seq<ProductId>>)
      modifies this
      ensures r.Err? && carts == old(carts)
    {
      var doc := CartModel.NewCart(None, []);
      var saved := SaveNew(newId, doc);
      r := if saved then Ok([]) else Err("Cart validation failed: user: Path `user` is required.");
    }

    /** `addProductToCart`: appends the id at the end, even when already present. */
    method AddProductToCart(cid: CartId, pid: ProductId) returns (r: Result<seq<ProductId>>)
      modifies this
      ensures cid !in old(carts) ==> r == Err("Cart not found") && carts == old(carts)
      ensures cid in old(carts) ==>
        r == Ok(old(carts)[cid] + [pid]) && carts == old(carts)[cid := old(carts)[cid] + [pid]]
    {
      if cid in carts {
        var products := carts[cid] + [pid];
        carts := carts[cid := products];
        return Ok(products);
      }
      return Err("Cart not found");
    }

    /** `removeProductFromCart`: drops every occurrence of the id. */
    method RemoveProductFromCart(cid: CartId, pid: ProductId) returns (r: Result<seq<ProductId>>)
      modifies this
      ensures cid !in old(carts) ==> r == Err("Cart not found") && carts == old(carts)
      ensures cid in old(carts) ==>
        r == Ok(RemoveAll(old(carts)[cid], pid)) && carts == old(carts)[cid := RemoveAll(old(carts)[cid], pid)]
    {
      if cid in carts {
        var products := RemoveAll(carts[cid], pid);
        carts := carts[cid := products];
        return Ok(products);
      }
      return Err("Cart not found");
    }
  }

  /** Adding then removing an id leaves no occurrence of it, whatever was there before. */
  lemma AddThenRemove(ids: seq<ProductId>, pid: ProductId)
    ensures RemoveAll(ids + [pid], pid) == RemoveAll(ids, pid)
  {
    RemoveAllAppend(ids, [pid], pid);
    assert RemoveAll([pid], pid) == [] by {
      assert [pid][1..] == [];
    }
  }
}
