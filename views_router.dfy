/** The two cart views of src/routes/views.router.js: the cart total they render and their
    not-found branches. Page rendering and the token decoding are not part of this model. */
module ViewsRouter {
  import opened Wrappers
  import ProductModel
  import TicketsRouter

  /** A line item after `populate`: the referenced product's price, or `None` when the reference
      no longer resolves (populate leaves `null`), and the quantity. */
  datatype ViewItem = ViewItem(price: Option<int>, quantity: int)

  predicate Populated(items: seq<ViewItem>) {
    forall i :: 0 <= i < |items| ==> items[i].price.Some?
  }

  /** The `reduce` both views run: Σ price × quantity, left to right from 0. */
  function CartTotal(items: seq<ViewItem>): int
    requires Populated(items)
    decreases |items|
  {
    if items == [] then 0
    else
      var last := items[|items| - 1];
      CartTotal(items[..|items| - 1]) + last.price.value * last.quantity
  }

  /** What a cart view answers. */
  datatype View =
    | NotFound              // 404 "Carrito no encontrado"
    | ServerError           // 500, e.g. a line item whose product is gone
    | RedirectToLogin
    | CartPage(cart: Option<seq<ViewItem>>, totalPrice: Option<int>)

  /** Renders a found cart with its total; a null product makes the fold throw (500). */
  function RenderCart(items: seq<ViewItem>): (v: View)
    ensures Populated(items) ==> v == CartPage(Some(items), Some(CartTotal(items)))
    ensures !Populated(items) ==> v == ServerError
  {
    if Populated(items) then CartPage(Some(items), Some(CartTotal(items))) else ServerError
  }

  /** `GET /carts/:cid`: `found` is the cart the lookup returned. */
  function CartById(found: Option<seq<ViewItem>>): (v: View)
    ensures found.None? ==> v == NotFound
    ensures found.Some? && Populated(found.value) ==> v == CartPage(found, Some(CartTotal(found.value)))
    ensures found.Some? && !Populated(found.value) ==> v == ServerError
  {
    if found.None? then NotFound else RenderCart(found.value)
  }

  /** `GET /carts`: no token redirects to the login page; a token that does not verify throws
      (500); no cart for the user renders the page with `cart: null` and no total. */
  function UserCart(token: Option<string>, tokenVerifies: bool, found: Option<seq<ViewItem>>): (v: View)
    ensures token.None? ==> v == RedirectToLogin
    ensures token.Some? && !tokenVerifies ==> v == ServerError
    ensures token.Some? && tokenVerifies && found.None? ==> v == CartPage(None, None)
    ensures token.Some? && tokenVerifies && found.Some? ==> v == CartById(found)
  {
    if token.None? then RedirectToLogin
    else if !tokenVerifies then ServerError
    else if found.None? then CartPage(None, None)
    else RenderCart(found.value)
  }

  lemma {:induction false} CartTotalAppend(a: seq<ViewItem>, b: seq<ViewItem>)
    requires Populated(a) && Populated(b)
    ensures Populated(a + b)
    ensures CartTotal(a + b) == CartTotal(a) + CartTotal(b)
    decreases |b|
  {
    if b == [] {
      assert a + b == a;
    } else {
      var n := |b|;
      assert (a + b)[..|a + b| - 1] == a + b[..n - 1];
      assert (a + b)[|a + b| - 1] == b[n - 1];
      CartTotalAppend(a, b[..n - 1]);
    }
  }

  /** The priced items of a purchase request, at the prices of the product collection. */
  function Priced(store: map<ProductModel.ProductId, ProductModel.Product>, items: seq<TicketsRouter.PurchaseItem>): (r: seq<ViewItem>)
    requires forall i :: 0 <= i < |items| ==> items[i].productId in store
    ensures |r| == |items| && Populated(r)
    ensures forall i :: 0 <= i < |items| ==> r[i] == ViewItem(Some(store[items[i].productId].price), items[i].quantity)
  {
    seq(|items|, i requires 0 <= i < |items| => ViewItem(Some(store[items[i].productId].price), items[i].quantity))
  }

  lemma {:induction false} AmountIsCartTotal(store: map<ProductModel.ProductId, ProductModel.Product>, items: seq<TicketsRouter.PurchaseItem>)
    requires forall i :: 0 <= i < |items| ==> items[i].productId in store
    ensures TicketsRouter.Amount(store, items) == CartTotal(Priced(store, items))
    decreases |items|
  {
    if items != [] {
      var n := |items|;
      AmountIsCartTotal(store, items[..n - 1]);
      assert Priced(store, items)[..n - 1] == Priced(store, items[..n - 1]);
    }
  }

  /** For the same items and prices, a successful purchase's `totalAmount` is the total the cart
      view shows. */
  lemma TicketTotalIsCartTotal(store: map<ProductModel.ProductId, ProductModel.Product>, items: seq<TicketsRouter.PurchaseItem>)
    requires TicketsRouter.Run(store, items).failure.None?
    ensures forall i :: 0 <= i < |items| ==> items[i].productId in store
    ensures TicketsRouter.Run(store, items).total == CartTotal(Priced(store, items))
  {
    TicketsRouter.RunTotal(store, items);
    AmountIsCartTotal(store, items);
  }

  /** Both views price a found cart with the same fold. */
  lemma ViewsAgree(token: string, items: seq<ViewItem>)
    ensures UserCart(Some(token), true, Some(items)) == CartById(Some(items))
    ensures Populated(items) ==> CartById(Some(items)).totalPrice == Some(CartTotal(items))
  {
  }
}
