/** The file-backed cart manager of src/managers/cart-manager.js, in memory only: the list of
    carts and the last issued id `ultId`. */
module Managers {
  import opened Wrappers
  import opened CartModel
  import opened LineItems

  /** A cart as the manager keeps it: a numeric id and its line items. */
  datatype StoredCart = StoredCart(id: int, products: seq<LineItem>)

  /** `Math.max` over the ids of a non-empty list of carts. */
  function MaxId(cs: seq<StoredCart>): (m: int)
    requires |cs| > 0
    ensures forall i :: 0 <= i < |cs| ==> cs[i].id <= m
    ensures exists i :: 0 <= i < |cs| && cs[i].id == m
  {
    if |cs| == 1 then cs[0].id
    else
      var rest := MaxId(cs[1..]);
      assert forall i :: 1 <= i < |cs| ==> cs[i] == cs[1..][i - 1];
      if cs[0].id >= rest then cs[0].id else rest
  }

  /** `find` by id: the position of the first cart with `id`, or -1. */
  function CartIndex(cs: seq<StoredCart>, id: int): (r: int)
    ensures -1 <= r < |cs|
    ensures r == -1 <==> forall i :: 0 <= i < |cs| ==> cs[i].id != id
    ensures r >= 0 ==> cs[r].id == id && forall j :: 0 <= j < r ==> cs[j].id != id
  {
    if cs == [] then -1
    else if cs[0].id == id then 0
    else
      var k := CartIndex(cs[1..], id);
      assert forall i :: 1 <= i < |cs| ==> cs[i] == cs[1..][i - 1];
      if k == -1 then -1 else k + 1
  }

  class CartManager {
    var carts: seq<StoredCart>
    var ultId: int

    /** `ultId` is at least every cart's id, so the next id it issues is fresh. */
    ghost predicate Valid()
      reads this
    {
      forall i :: 0 <= i < |carts| ==> carts[i].id <= ultId
    }

    /** The constructor once `cargarCarritos` has run: `loaded` is the parsed file, or `None`
        when it could not be read (the manager then starts empty). */
    constructor (loaded: Option<seq<StoredCart>>)
      ensures Valid()
      ensures carts == if loaded.Some? then loaded.value else []
      ensures ultId == if loaded.Some? && |loaded.value| > 0 then MaxId(loaded.value) else 0
    {
      if loaded.Some? {
        carts := loaded.value;
        ultId := if |loaded.value| > 0 then MaxId(loaded.value) else 0;
      } else {
        carts := [];
        ultId := 0;
      }
    }

    /** `crearCarrito`: issues id `ultId + 1` to a new empty cart appended at the end. */
    method CreateCart() returns (cart: StoredCart)
      requires Valid()
      modifies this
      ensures Valid()
      ensures cart == StoredCart(old(ultId) + 1, []) && ultId == cart.id
      ensures carts == old(carts) + [cart]
      ensures forall i :: 0 <= i < |old(carts)| ==> old(carts)[i].id < cart.id
    {
      ultId := ultId + 1;
      cart := StoredCart(ultId, []);
      carts := carts + [cart];
    }

    /** `getCarritoById`: the first cart with `id`, or the error it throws. */
    method GetCartById(id: int) returns (r: Result<StoredCart>)
      ensures r.Err? <==> forall i :: 0 <= i < |carts| ==> carts[i].id != id
      ensures r.Ok? ==> r.value.id == id
      ensures r.Ok? ==> exists k :: 0 <= k < |carts| && carts[k] == r.value && forall j :: 0 <= j < k ==> carts[j].id != id
    {
      var k := CartIndex(carts, id);
      if k == -1 {
        r := Err("No existe un carrito con el id");
      } else {
        r := Ok(carts[k]);
      }
    }

    /** `agregarProductoAlCarrito`: accumulate-or-append on the first cart with `cartId`
        (quantity 1 when none is given); no other cart changes. */
    method AddProduct(cartId: int, productId: ProductId, quantity: Option<int>) returns (r: Result<StoredCart>)
      requires Valid()
      modifies this`carts
      ensures Valid()
      ensures CartIndex(old(carts), cartId) == -1 ==> r.Err? && carts == old(carts)
      ensures CartIndex(old(carts), cartId) != -1 ==>
        var k := CartIndex(old(carts), cartId);
        var updated := old(carts)[k].(products := Accumulate(old(carts)[k].products, productId, quantity.GetOr(1)));
        r == Ok(updated) && carts == old(carts)[k := updated]
    {
      var k := CartIndex(carts, cartId);
      if k == -1 {
        return Err("No existe un carrito con el id");
      }
      var cart := carts[k];
      var products := cart.products;
      var e := FirstIndex(products, productId);
      if e != -1 {
        products := products[e := products[e].(quantity := products[e].quantity + quantity.GetOr(1))];
      } else {
        products := products + [LineItem(productId, quantity.GetOr(1))];
      }
      assert products == Accumulate(cart.products, productId, quantity.GetOr(1));
      var updated := cart.(products := products);
      carts := carts[k := updated];
      r := Ok(updated);
    }
  }

  /** Two carts created one after the other get strictly increasing ids, both absent before. */
  method CreateTwice(m: CartManager) returns (a: StoredCart, b: StoredCart)
    requires m.Valid()
    modifies m
    ensures m.Valid()
    ensures a.id < b.id
    ensures forall i :: 0 <= i < |old(m.carts)| ==> old(m.carts)[i].id != a.id && old(m.carts)[i].id != b.id
    ensures m.carts == old(m.carts) + [a, b]
  {
    a := m.CreateCart();
    b := m.CreateCart();
  }
}
