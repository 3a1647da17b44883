/** The cart projection of src/dto/cart.dto.js. */
module CartDto {

  /** A database identifier; its string form is its hexadecimal text. */
  datatype ObjectId = ObjectId(hex: string)

  /** A stored line item: its own subdocument id, the product it refers to, a quantity. */
  datatype ItemDoc = ItemDoc(id: ObjectId, product: ObjectId, quantity: int)
  datatype CartDoc = CartDoc(id: ObjectId, products: seq<ItemDoc>)

  datatype ItemDto = ItemDto(productId: string, quantity: int)
  datatype CartDto = CartDto(id: ObjectId, products: seq<ItemDto>)

  function ProjectItems(items: seq<ItemDoc>): (r: seq<ItemDto>)
    ensures |r| == |items|
    ensures forall i :: 0 <= i < |items| ==> r[i].productId == items[i].id.hex && r[i].quantity == items[i].quantity
  {
    if items == [] then [] else [ItemDto(items[0].id.hex, items[0].quantity)] + ProjectItems(items[1..])
  }

  /** The `CartDTO` constructor: same id, one entry per item in the same order. */
  function FromCart(cart: CartDoc): (dto: CartDto)
    ensures dto.id == cart.id
    ensures |dto.products| == |cart.products|
    ensures forall i :: 0 <= i < |cart.products| ==>
      dto.products[i].quantity == cart.products[i].quantity && dto.products[i].productId == cart.products[i].id.hex
  {
    CartDto(cart.id, ProjectItems(cart.products))
  }

  /** The entry's `productId` comes from the line item's own id, so the product a line item
      refers to never shows in the projection: two carts that differ only there project alike. */
  lemma ProjectionIgnoresProductReference(cart: CartDoc, refs: seq<ObjectId>)
    requires |refs| == |cart.products|
    ensures FromCart(CartDoc(cart.id, seq(|refs|, i requires 0 <= i < |refs| => cart.products[i].(product := refs[i]))))
         == FromCart(cart)
  {
    var other := CartDoc(cart.id, seq(|refs|, i requires 0 <= i < |refs| => cart.products[i].(product := refs[i])));
    assert FromCart(other).products == FromCart(cart).products;
  }
}
