/** The documents the admin console keeps in MongoDB, and the two schemas
  * whose defaults and required paths the routes rely on
  * (`lib/categorySchema.ts`, `lib/productSchema.ts`). Timestamps are whole
  * numbers; a schema default timestamp is the moment its module was loaded. */
module Records {
  import opened Wrappers

  type Id = nat

  /** An uploaded image as stored on a document: the object key and its public URL. */
  datatype StoredImage = StoredImage(key: string, link: string)

  /** A category property; `custom` is absent until the edit page sets it. */
  datatype Property = Property(name: string, value: string, custom: Option<bool>)

  /** The `parentCategory` object of a category: `{}` (no keys), an object
    * carrying only a name (the schema default is `{name: ''}`), or a full
    * copy of the parent category document with its `_id`. */
  datatype Parent = NoKeys | NameOnly(name: string) | Snapshot(doc: Category)

  datatype Category = Category(
    id: Id, name: string, parent: Parent, properties: seq<Property>,
    childCategories: seq<string>, images: seq<StoredImage>, created: nat, updated: nat)

  datatype Product = Product(
    id: Id, name: string, brand: string, description: string, contents: string,
    price: int, images: seq<StoredImage>, category: string, properties: map<string, string>,
    discount: int, stock: int, currency: string, created: nat, updated: nat)

  /** `maximumDeliveryDays` is `None` when the field is absent or null. */
  datatype ShippingRate = ShippingRate(
    id: Id, name: string, minimumDeliveryDays: int, maximumDeliveryDays: Option<int>,
    rate: int, created: nat, updated: nat)

  datatype Currency = Currency(id: Id, name: string, shortName: string, symbol: string, created: nat, updated: nat)

  datatype CurrencyRate = CurrencyRate(id: Id, from: string, to: string, rate: int, created: nat, updated: nat)

  datatype Promocode = Promocode(id: Id, code: string, validUntil: string, discountPercent: int, created: nat, updated: nat)

  datatype Order = Order(
    id: Id, orderId: string, userEmail: string, subTotal: int, total: int, shippingRate: string,
    shippingFee: int, paymentId: string, paymentMethod: string, paymentStatus: string,
    deliveryStatus: string, discount: int, promocode: Option<string>, currency: string,
    created: nat, updated: nat)

  datatype Admin = Admin(
    id: Id, name: string, email: string, password: string, image: string,
    emailVerified: bool, created: nat, updated: nat)

  /** `Object.keys(parentCategory).length > 0`. */
  predicate HasKeys(p: Parent)
  {
    !p.NoKeys?
  }

  /** `parentCategory.name`: undefined for `{}`. */
  function ParentName(p: Parent): Option<string>
  {
    match p
    case NoKeys => None
    case NameOnly(n) => Some(n)
    case Snapshot(c) => Some(c.name)
  }

  /** The message Mongoose gives when required paths are missing. */
  function ValidationMessage(model: string, paths: seq<string>): string
  {
    model + " validation failed: " + RequiredList(paths)
  }

  function RequiredList(paths: seq<string>): string
  {
    if |paths| == 0 then ""
    else
      var one := paths[0] + ": Path `" + paths[0] + "` is required.";
      if |paths| == 1 then one else one + ", " + RequiredList(paths[1..])
  }

  /** `Category.create`: the fields the caller leaves out take the schema
    * defaults; an empty name fails the required validator. */
  function NewCategory(
    id: Id, name: string, parent: Option<Parent>, properties: Option<seq<Property>>,
    images: seq<StoredImage>, loadTime: nat): (r: Result<Category>)
    ensures r.Thrown? <==> name == ""
    ensures r.Thrown? ==> r.error == ValidationMessage("categories", ["name"])
    ensures r.Ok? ==>
      && r.value.id == id && r.value.name == name && r.value.images == images
      && r.value.parent == (if parent.Some? then parent.value else NameOnly(""))
      && r.value.properties == (if properties.Some? then properties.value else [])
      && r.value.childCategories == []
      && r.value.created == loadTime && r.value.updated == loadTime
  {
    if name == "" then Thrown(ValidationMessage("categories", ["name"]))
    else
      Ok(Category(id, name, parent.GetOr(NameOnly("")), properties.GetOr([]), [], images, loadTime, loadTime))
  }

  /** The product paths that are required and missing, in schema order. */
  function MissingProductPaths(
    name: string, brand: string, description: string, contents: string,
    category: string, currency: Option<string>): (r: seq<string>)
    ensures r == [] <==> name != "" && brand != "" && description != "" && contents != ""
                         && category != "" && currency.Some? && currency.value != ""
    ensures (currency.None? || currency == Some("")) ==> r != [] && r[|r| - 1] == "currency"
  {
    (if name == "" then ["name"] else [])
    + (if brand == "" then ["brand"] else [])
    + (if description == "" then ["description"] else [])
    + (if contents == "" then ["contents"] else [])
    + (if category == "" then ["category"] else [])
    + (if currency.None? || currency.value == "" then ["currency"] else [])
  }

  /** `Product.create`: `discount` and `stock` default to 0; a missing
    * required path fails validation. */
  function NewProduct(
    id: Id, name: string, brand: string, description: string, contents: string, price: int,
    images: seq<StoredImage>, category: string, properties: map<string, string>,
    discount: Option<int>, stock: Option<int>, currency: Option<string>, loadTime: nat): (r: Result<Product>)
    ensures r.Thrown? <==> MissingProductPaths(name, brand, description, contents, category, currency) != []
    ensures r.Thrown? ==>
      r.error == ValidationMessage("products", MissingProductPaths(name, brand, description, contents, category, currency))
    ensures r.Ok? ==>
      && r.value.id == id && r.value.name == name && r.value.images == images
      && r.value.properties == properties && r.value.price == price
      && r.value.discount == (if discount.Some? then discount.value else 0)
      && r.value.stock == (if stock.Some? then stock.value else 0)
      && Some(r.value.currency) == currency
      && r.value.created == loadTime && r.value.updated == loadTime
  {
    var missing := MissingProductPaths(name, brand, description, contents, category, currency);
    if missing != [] then Thrown(ValidationMessage("products", missing))
    else
      Ok(Product(id, name, brand, description, contents, price, images, category, properties,
                      discount.GetOr(0), stock.GetOr(0), currency.value, loadTime, loadTime))
  }

  /** A product created without a currency never passes validation. */
  lemma NoCurrencyNoProduct(
    id: Id, name: string, brand: string, description: string, contents: string, price: int,
    images: seq<StoredImage>, category: string, properties: map<string, string>,
    discount: Option<int>, stock: Option<int>, loadTime: nat)
    ensures NewProduct(id, name, brand, description, contents, price, images, category, properties,
                       discount, stock, None, loadTime).Thrown?
  {
  }
}
