/** The product schema (src/models/product.model.js) as a validity predicate, with its defaults
    and the unique index on `code`. Prices are integers (cents). */
module ProductModel {
  import opened Wrappers

  type ProductId = string

  const Categories: set<string> := {"electronics", "clothing", "food", "home", "other"}
  const Statuses: set<string> := {"available", "out of stock", "discontinued"}

  const DefaultPrice: int := 1
  const DefaultStock: int := 1
  const DefaultCategory: string := "other"
  const DefaultStatus: string := "available"
  const DefaultImg: string := "default-product-img.jpg"
  const DefaultThumbnails: seq<string> := ["default-thumbnail.jpg"]

  /** A product document as supplied by a caller; `None` is a field left out. */
  datatype ProductInput = ProductInput(
    title: Option<string>,
    description: Option<string>,
    price: Option<int>,
    img: Option<string>,
    code: Option<string>,
    stock: Option<int>,
    category: Option<string>,
    status: Option<string>,
    thumbnails: Option<seq<string>>)

  /** A product document once every field is present. */
  datatype Product = Product(
    title: string,
    description: string,
    price: int,
    img: string,
    code: string,
    stock: int,
    category: string,
    status: string,
    thumbnails: seq<string>)

  /** A required string is present and non-empty (the document mapper rejects ""). */
  predicate RequiredString(s: Option<string>) {
    s.Some? && |s.value| > 0
  }

  /** What the schema's validators demand of a stored product. */
  predicate ProductValid(p: Product) {
    && |p.title| > 0
    && |p.description| > 0
    && p.price >= 0
    && |p.code| > 0
    && p.stock >= 0
    && p.category in Categories
    && p.status in Statuses
  }

  /** Builds a document from the input, filling in the schema defaults, and validates it. */
  function Build(input: ProductInput): (r: Option<Product>)
    ensures r.Some? <==>
      && RequiredString(input.title) && RequiredString(input.description) && RequiredString(input.code)
      && input.price.GetOr(DefaultPrice) >= 0 && input.stock.GetOr(DefaultStock) >= 0
      && input.category.GetOr(DefaultCategory) in Categories
      && input.status.GetOr(DefaultStatus) in Statuses
    ensures r.Some? ==> ProductValid(r.value)
    ensures r.Some? ==>
      && Some(r.value.title) == input.title && Some(r.value.description) == input.description
      && Some(r.value.code) == input.code
      && (input.price.Some? ==> r.value.price == input.price.value)
      && (input.price.None? ==> r.value.price == 1)
      && (input.stock.Some? ==> r.value.stock == input.stock.value)
      && (input.stock.None? ==> r.value.stock == 1)
      && (input.category.Some? ==> r.value.category == input.category.value)
      && (input.category.None? ==> r.value.category == "other")
      && (input.status.Some? ==> r.value.status == input.status.value)
      && (input.status.None? ==> r.value.status == "available")
      && (input.img.Some? ==> r.value.img == input.img.value)
      && (input.img.None? ==> r.value.img == "default-product-img.jpg")
      && (input.thumbnails.Some? ==> r.value.thumbnails == input.thumbnails.value)
      && (input.thumbnails.None? ==> r.value.thumbnails == ["default-thumbnail.jpg"])
  {
    if input.title.None? || input.description.None? || input.code.None? then None
    else
      var p := Product(
        input.title.value, input.description.value,
        input.price.GetOr(DefaultPrice), input.img.GetOr(DefaultImg),
        input.code.value, input.stock.GetOr(DefaultStock),
        input.category.GetOr(DefaultCategory), input.status.GetOr(DefaultStatus),
        input.thumbnails.GetOr(DefaultThumbnails));
      if ProductValid(p) then Some(p) else None
  }

  /** No two stored products share a `code` (the unique index). */
  predicate CodesUnique(store: map<ProductId, Product>) {
    forall a, b :: a in store && b in store && a != b ==> store[a].code != store[b].code
  }

  /** Every stored product passed validation, and codes are unique. */
  predicate StoreValid(store: map<ProductId, Product>) {
    (forall id :: id in store ==> ProductValid(store[id])) && CodesUnique(store)
  }

  /** Saving `p` under `id`: the validators and the unique index must both accept it. */
  function Save(store: map<ProductId, Product>, id: ProductId, p: Product): (r: Result<map<ProductId, Product>>)
    ensures r.Ok? <==> ProductValid(p) && forall other :: other in store && other != id ==> store[other].code != p.code
    ensures r.Ok? ==> r.value == store[id := p]
    ensures StoreValid(store) && r.Ok? ==> StoreValid(r.value)
  {
    if ProductValid(p) && forall other :: other in store && other != id ==> store[other].code != p.code
    then Ok(store[id := p])
    else Err("E11000 duplicate key or validation error")
  }

  /** A change of stock alone keeps a valid store valid as long as the stock stays non-negative. */
  lemma {:induction false} RestockKeepsStoreValid(store: map<ProductId, Product>, id: ProductId, stock: int)
    requires StoreValid(store) && id in store && stock >= 0
    ensures StoreValid(store[id := store[id].(stock := stock)])
  {
    var s' := store[id := store[id].(stock := stock)];
    forall a, b | a in s' && b in s' && a != b
      ensures s'[a].code != s'[b].code
    {
      assert s'[a].code == store[a].code && s'[b].code == store[b].code;
    }
  }
}
