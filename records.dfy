/**
  The product record the catalog is rendered from, restricted to the fields the
  catalog reads. Related rows (brand, category, subcategory) are carried as the
  entity itself, so that "no related row" and "a related row with some name"
  stay distinct, as they are for the ORM objects.
 */
module Records {
  import opened Wrappers

  datatype Brand = Brand(name: string)
  datatype Category = Category(name: string)
  datatype Subcategory = Subcategory(name: string)

  /**
    One product. `price` is a decimal with two fractional places, held as a
    whole number of hundredths (cents). Every field the catalog reads may be
    absent, since the renderer must cope with that.
   */
  datatype Product = Product(
    name: Option<string>,
    description: Option<string>,
    price: Option<int>,
    stock: Option<int>,
    code: Option<string>,
    brand: Option<Brand>,
    category: Option<Category>,
    subcategory: Option<Subcategory>,
    featured: bool)
}
