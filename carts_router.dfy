/** The cart routes of src/routes/carts.router.js: the id gate `verifyObjectId` and the handlers
    that create a cart, read it, and add, remove, update, replace or clear its line items.
    The cart collection is a map from cart id to document; a product lookup only asks whether the
    id is in the catalog; `save` succeeds exactly when the document passes the cart schema. */
module CartsRouter {
  import opened Wrappers
  import opened CartModel
  import opened LineItems

  type CartId = string

  /** `verifyObjectId`: the cart id must be a valid ObjectId, and so must the product id when the
      route has one (an empty product id is falsy and skips the test). `validId` stands for
      `mongoose.Types.ObjectId.isValid`. */
  function IdsAccepted(validId: string -> bool, cid: string, pid: Option<string>): (ok: bool)
    ensures ok <==> validId(cid) && (pid.Some? && pid.value != "" ==> validId(pid.value))
    ensures pid == Some("") ==> (ok <==> validId(cid))
  {
    validId(cid) && !(pid.Some? && pid.value != "" && !validId(pid.value))
  }

  /** Every cart in the collection passed validation when it was saved. */
  ghost predicate AllValid(carts: map<CartId, Cart>) {
    forall id :: id in carts ==> CartValid(carts[id])
  }

  class CartsApi {
    var carts: map<CartId, Cart>
    var catalog: set<ProductId>

    ghost predicate Valid()
      reads this
    {
      AllValid(carts)
    }

    constructor (carts0: map<CartId, Cart>, catalog0: set<ProductId>)
      requires AllValid(carts0)
      ensures Valid() && carts == carts0 && catalog == catalog0
    {
      carts := carts0;
      catalog := catalog0;
    }

    /** `save`: the document is stored exactly when it passes the cart schema; a rejected save
        throws, which every handler turns into a 500. */
    method SaveCart(id: CartId, c: Cart) returns (saved: bool)
      requires Valid()
      modifies this`carts
      ensures Valid()
      ensures saved == CartValid(c)
      ensures carts == if saved then old(carts)[id := c] else old(carts)
    {
      saved := CartValid(c);
      if saved {
        carts := carts[id := c];
      }
    }

    /** `POST /`: the new cart is built without its required `user`, so its save is always
        rejected and the route answers 500 without storing anything. */
    method Create(newId: CartId) returns (status: int)
      requires Valid()
      modifies this`carts
      ensures Valid()
      ensures status == 500 && carts == old(carts)
    {
      var unowned := NewCart(None, []);
      var saved := SaveCart(newId, unowned);
      status := if saved then 201 else 500;
    }

    /** `GET /:cid` and `GET /api/:cid`. */
    method Get(validId: string -> bool, cid: CartId) returns (status: int, cart: Option<Cart>)
      ensures !IdsAccepted(validId, cid, None) ==> status == 400 && cart == None
      ensures IdsAccepted(validId, cid, None) && cid !in carts ==> status == 404 && cart == None
      ensures IdsAccepted(validId, cid, None) && cid in carts ==> status == 200 && cart == Some(carts[cid])
    {
      if !IdsAccepted(validId, cid, None) {
        return 400, None;
      }
      if cid !in carts {
        return 404, None;
      }
      return 200, Some(carts[cid]);
    }

    /** `DELETE /:cid/products/:pid`: drops every item for `pid`; an absent `pid` still answers 200. */
    method Remove(validId: string -> bool, cid: CartId, pid: ProductId) returns (status: int)
      requires Valid()
      modifies this`carts
      ensures Valid()
      ensures !IdsAccepted(validId, cid, Some(pid)) ==> status == 400 && carts == old(carts)
      ensures IdsAccepted(validId, cid, Some(pid)) && cid !in old(carts) ==> status == 404 && carts == old(carts)
      ensures IdsAccepted(validId, cid, Some(pid)) && cid in old(carts) ==>
        && status == 200
        && carts == old(carts)[cid := old(carts)[cid].(products := Without(old(carts)[cid].products, pid))]
    {
      if !IdsAccepted(validId, cid, Some(pid)) {
        return 400;
      }
      if cid !in carts {
        return 404;
      }
      var cart := carts[cid];
      var updated := cart.(products := Without(cart.products, pid));
      forall i | 0 <= i < |updated.products| ensures ItemValid(updated.products[i]) {
        assert updated.products[i] in cart.products;
      }
      var saved := SaveCart(cid, updated);
      status := if saved then 200 else 500;
    }

    /** `PUT /:cid`: stores the supplied list verbatim when every item has a product, a quantity,
        and a quantity of at least 1; otherwise validation rejects the save (500). */
    method Replace(validId: string -> bool, cid: CartId, items: seq<ItemInput>) returns (status: int)
      requires Valid()
      modifies this`carts
      ensures Valid()
      ensures !IdsAccepted(validId, cid, None) ==> status == 400 && carts == old(carts)
      ensures IdsAccepted(validId, cid, None) && cid !in old(carts) ==> status == 404 && carts == old(carts)
      ensures IdsAccepted(validId, cid, None) && cid in old(carts) ==>
        && (status == 200 <==> forall i :: 0 <= i < |items| ==> ItemInputValid(items[i]))
        && (status == 200 ==> carts == old(carts)[cid := old(carts)[cid].(products := Materialize(items))])
        && (status != 200 ==> status == 500 && carts == old(carts))
    {
      if !IdsAccepted(validId, cid, None) {
        return 400;
      }
      if cid !in carts {
        return 404;
      }
      if forall i :: 0 <= i < |items| ==> items[i].product.Some? && items[i].quantity.Some? {
        var updated := carts[cid].(products := Materialize(items));
        var saved := SaveCart(cid, updated);
        assert saved <==> forall i :: 0 <= i < |items| ==> ItemInputValid(items[i]) by {
          if !saved {
            var i :| 0 <= i < |items| && !ItemValid(updated.products[i]);
            assert !ItemInputValid(items[i]);
          }
        }
        status := if saved then 200 else 500;
      } else {
        status := 500;
      }
    }

    /** `PUT /:cid/products/:pid`: overwrites the quantity of the first item for `pid`; 404 when
        the cart holds no such item. The body's quantity is not checked by the route, so one that
        is missing or below 1 is rejected only by the save (500). */
    method UpdateQuantity(validId: string -> bool, cid: CartId, pid: ProductId, quantity: Option<int>) returns (status: int)
      requires Valid()
      modifies this`carts
      ensures Valid()
      ensures !IdsAccepted(validId, cid, Some(pid)) ==> status == 400 && carts == old(carts)
      ensures IdsAccepted(validId, cid, Some(pid)) && cid !in old(carts) ==> status == 404 && carts == old(carts)
      ensures IdsAccepted(validId, cid, Some(pid)) && cid in old(carts) && !Contains(old(carts)[cid].products, pid) ==>
        status == 404 && carts == old(carts)
      ensures IdsAccepted(validId, cid, Some(pid)) && cid in old(carts) && Contains(old(carts)[cid].products, pid) ==>
        var items := old(carts)[cid].products;
        var k := FirstIndex(items, pid);
        && (status == 200 <==> quantity.Some? && quantity.value >= 1)
        && (status == 200 ==> carts == old(carts)[cid := old(carts)[cid].(products := items[k := LineItem(pid, quantity.value)])])
        && (status != 200 ==> status == 500 && carts == old(carts))
    {
      if !IdsAccepted(validId, cid, Some(pid)) {
        return 400;
      }
      if cid !in carts {
        return 404;
      }
      var cart := carts[cid];
      var k := FirstIndex(cart.products, pid);
      if k == -1 {
        return 404;
      }
      if quantity.None? {
        return 500;
      }
      var updated := cart.(products := cart.products[k := cart.products[k].(quantity := quantity.value)]);
      var saved := SaveCart(cid, updated);
      assert saved <==> quantity.value >= 1 by {
        assert updated.products[k].quantity == quantity.value;
      }
      status := if saved then 200 else 500;
    }

    /** `DELETE /:cid`: empties the item list and keeps the rest of the cart. */
    method Clear(validId: string -> bool, cid: CartId) returns (status: int)
      requires Valid()
      modifies this`carts
      ensures Valid()
      ensures !IdsAccepted(validId, cid, None) ==> status == 400 && carts == old(carts)
      ensures IdsAccepted(validId, cid, None) && cid !in old(carts) ==> status == 404 && carts == old(carts)
      ensures IdsAccepted(validId, cid, None) && cid in old(carts) ==>
        status == 200 && carts == old(carts)[cid := old(carts)[cid].(products := [])]
    {
      if !IdsAccepted(validId, cid, None) {
        return 400;
      }
      if cid !in carts {
        return 404;
      }
      var saved := SaveCart(cid, carts[cid].(products := []));
      status := if saved then 200 else 500;
    }

    /** `POST /:cid/product/:pid`: raises the first matching item's quantity or appends a new
        item; the quantity defaults to 1 when the body has none. The answer is the cart's items. */
    method Add(validId: string -> bool, cid: CartId, pid: ProductId, quantity: Option<int>)
      returns (status: int, items: seq<LineItem>)
      requires Valid()
      modifies this`carts
      ensures Valid()
      ensures !IdsAccepted(validId, cid, Some(pid)) ==> status == 400 && carts == old(carts)
      ensures IdsAccepted(validId, cid, Some(pid)) && cid !in old(carts) ==> status == 404 && carts == old(carts)
      ensures IdsAccepted(validId, cid, Some(pid)) && cid in old(carts) && pid !in catalog ==>
        status == 404 && carts == old(carts)
      ensures IdsAccepted(validId, cid, Some(pid)) && cid in old(carts) && pid in catalog ==>
        var updated := old(carts)[cid].(products := Accumulate(old(carts)[cid].products, pid, quantity.GetOr(1)));
        && (status == 200 <==> CartValid(updated))
        && (status == 200 ==> carts == old(carts)[cid := updated] && items == updated.products)
        && (status != 200 ==> status == 500 && carts == old(carts))
    {
      items := [];
      if !IdsAccepted(validId, cid, Some(pid)) {
        return 400, items;
      }
      if cid !in carts {
        return 404, items;
      }
      if pid !in catalog {
        return 404, items;
      }
      var cart := carts[cid];
      var q := quantity.GetOr(1);
      var k := FirstIndex(cart.products, pid);
      var products := cart.products;
      if k != -1 {
        products := products[k := products[k].(quantity := products[k].quantity + q)];
      } else {
        products := products + [LineItem(pid, q)];
      }
      assert products == Accumulate(cart.products, pid, q);
      var updated := cart.(products := products);
      var saved := SaveCart(cid, updated);
      if saved {
        status, items := 200, products;
      } else {
        status := 500;
      }
    }
  }

  /** Adding to a cart whose items have distinct products keeps them distinct, and the product's
      total quantity grows by exactly the requested amount (1 when none is given). */
  lemma AddKeepsProductsDistinct(cart: Cart, pid: ProductId, quantity: Option<int>)
    requires Distinct(cart.products)
    ensures Distinct(Accumulate(cart.products, pid, quantity.GetOr(1)))
    ensures QuantityOf(Accumulate(cart.products, pid, quantity.GetOr(1)), pid)
         == QuantityOf(cart.products, pid) + quantity.GetOr(1)
  {
    AccumulateKeepsDistinct(cart.products, pid, quantity.GetOr(1));
    AccumulateAddsQuantity(cart.products, pid, quantity.GetOr(1), pid);
  }

  /** An update whose quantity is 0 reaches the save with a line item the schema rejects. */
  lemma ZeroQuantityUpdateRejected(cart: Cart, k: nat, pid: ProductId)
    requires k < |cart.products|
    ensures !CartValid(cart.(products := cart.products[k := LineItem(pid, 0)]))
  {
    assert !ItemValid(cart.products[k := LineItem(pid, 0)][k]);
  }
}
