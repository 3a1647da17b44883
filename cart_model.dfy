/** The cart schema (src/models/cart.model.js) as a validity predicate. */
module CartModel {
  import opened Wrappers

  type ProductId = string
  type UserId = string

  const CartStates: set<string> := {"reserved", "paid", "delivered"}
  const DefaultState: string := "reserved"

  /** A stored line item: a product reference and a quantity. */
  datatype LineItem = LineItem(product: ProductId, quantity: int)

  /** A line item as a request body supplies it; either field may be missing. */
  datatype ItemInput = ItemInput(product: Option<ProductId>, quantity: Option<int>)

  /** A cart document: the owning user (required by the schema), line items, lifecycle state. */
  datatype Cart = Cart(user: Option<UserId>, products: seq<LineItem>, state: string)

  /** The line-item validators: the product reference is typed as present, quantity at least 1. */
  predicate ItemValid(item: LineItem) {
    item.quantity >= 1
  }

  predicate ItemInputValid(item: ItemInput) {
    item.product.Some? && item.quantity.Some? && item.quantity.value >= 1
  }

  /** What saving a cart checks. */
  predicate CartValid(c: Cart) {
    && c.user.Some?
    && (forall i :: 0 <= i < |c.products| ==> ItemValid(c.products[i]))
    && c.state in CartStates
  }

  /** A new cart document; `state` takes its default. */
  function NewCart(user: Option<UserId>, products: seq<LineItem>): (c: Cart)
    ensures c.state == "reserved" && c.user == user && c.products == products
  {
    Cart(user, products, DefaultState)
  }

  /** The items of a body whose every item validates, as stored line items. */
  function Materialize(items: seq<ItemInput>): (r: seq<LineItem>)
    requires forall i :: 0 <= i < |items| ==> items[i].product.Some? && items[i].quantity.Some?
    ensures |r| == |items|
    ensures forall i :: 0 <= i < |items| ==>
      r[i] == LineItem(items[i].product.value, items[i].quantity.value)
  {
    if items == [] then [] else [LineItem(items[0].product.value, items[0].quantity.value)] + Materialize(items[1..])
  }

  /** A cart made without a user, as cart creation does, never passes validation. */
  lemma CartWithoutUserInvalid(products: seq<LineItem>)
    ensures !CartValid(NewCart(None, products))
  {
  }

  /** The schema does not forbid two line items for the same product. */
  lemma DuplicateProductsAllowed(user: UserId, pid: ProductId)
    ensures exists c :: CartValid(c) && |c.products| == 2 && c.products[0].product == c.products[1].product == pid
  {
    var c := NewCart(Some(user), [LineItem(pid, 1), LineItem(pid, 1)]);
    assert CartValid(c);
  }
}
