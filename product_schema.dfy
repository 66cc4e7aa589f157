/** The product schema (server/models/Product.js). */
module ProductSchema {
  import opened JsBase

  /** The closed `category` enum. */
  datatype ProductCategory = Clothes | Footwear | Apparel | FashionAccessories

  function CategoryName(c: ProductCategory): string
  {
    match c
    case Clothes => "Clothes"
    case Footwear => "Footwear"
    case Apparel => "Apparel"
    case FashionAccessories => "Fashion Accessories"
  }

  /** The enum validator: the category a stored string names, if any. */
  function ParseCategory(s: string): (c: Option<ProductCategory>)
    ensures c.Some? ==> CategoryName(c.value) == s
  {
    if s == "Clothes" then Some(Clothes)
    else if s == "Footwear" then Some(Footwear)
    else if s == "Apparel" then Some(Apparel)
    else if s == "Fashion Accessories" then Some(FashionAccessories)
    else None
  }

  lemma ParseCategoryName(c: ProductCategory)
    ensures ParseCategory(CategoryName(c)) == Some(c)
  {
  }

  datatype Product = Product(
    id: Id,
    name: string,
    description: string,
    price: real,
    category: ProductCategory,
    seller: Id,
    image: string,
    sku: string,
    allowLocalWarehouse: bool)

  /** A product created from its required fields, the rest taking the
      schema's defaults. */
  function NewProduct(id: Id, name: string, price: real, category: ProductCategory, seller: Id, sku: string): Product
  {
    Product(id, name, "", price, category, seller, "", sku, true)
  }

  /** A new product may be stocked locally and has no description or image. */
  lemma NewProductDefaults(id: Id, name: string, price: real, category: ProductCategory, seller: Id, sku: string)
    ensures var p := NewProduct(id, name, price, category, seller, sku);
      && p.allowLocalWarehouse && p.description == "" && p.image == ""
      && p.category == category && p.seller == seller
  {
  }
}
