/** The MongoDB collections and the S3 bucket the routes work on, as one
  * mutable store. */
module Database {
  import opened Wrappers
  import opened Records

  /** The store and storage calls a route makes; a route given a fault for a
    * step sees that call throw with the fault's message. */
  datatype Step = Connect | Find | PutObject | DeleteObject | DeleteObjects | Create | Update | Pull | Push | SignToken | SendMail

  type Faults = map<Step, string>

  /** The documents of every collection, as one value. */
  datatype DocSet = DocSet(
    categories: seq<Category>, products: seq<Product>, shippingRates: seq<ShippingRate>,
    currencies: seq<Currency>, currencyRates: seq<CurrencyRate>, promocodes: seq<Promocode>,
    orders: seq<Order>, admins: seq<Admin>)

  /** The documents a `create` call writes: none when validation throws. */
  function Written<T>(created: Result<T>): (docs: seq<T>)
    ensures created.Ok? ==> docs == [created.value]
    ensures created.Thrown? ==> docs == []
  {
    match created
    case Ok(doc) => [doc]
    case Thrown(_) => []
  }

  class Store {
    var categories: seq<Category>
    var products: seq<Product>
    var shippingRates: seq<ShippingRate>
    var currencies: seq<Currency>
    var currencyRates: seq<CurrencyRate>
    var promocodes: seq<Promocode>
    var orders: seq<Order>
    var admins: seq<Admin>
    /** The keys of the objects in the S3 bucket. */
    var objects: set<string>
    /** The next `_id` MongoDB hands out. */
    var nextId: nat
    /** When the schema modules were loaded: every `created`/`updated` default. */
    const loadTime: nat

    function Docs(): DocSet
      reads this
    {
      DocSet(categories, products, shippingRates, currencies, currencyRates, promocodes, orders, admins)
    }

    constructor (loadTime: nat)
      ensures Docs() == DocSet([], [], [], [], [], [], [], [])
      ensures objects == {} && nextId == 0 && this.loadTime == loadTime
    {
      categories, products, shippingRates, currencies := [], [], [], [];
      currencyRates, promocodes, orders, admins := [], [], [], [];
      objects := {};
      nextId := 0;
      this.loadTime := loadTime;
    }

    /** `session.abortTransaction()`: the documents return to a snapshot;
      * the bucket does not. */
    method Restore(snapshot: DocSet)
      modifies this
      ensures Docs() == snapshot
      ensures objects == old(objects) && nextId == old(nextId)
    {
      categories, products, shippingRates, currencies := snapshot.categories, snapshot.products, snapshot.shippingRates, snapshot.currencies;
      currencyRates, promocodes, orders, admins := snapshot.currencyRates, snapshot.promocodes, snapshot.orders, snapshot.admins;
    }

    /** A fresh `_id` for a document about to be created. */
    method FreshId() returns (id: Id)
      modifies this`nextId
      ensures id == old(nextId) && nextId == old(nextId) + 1
    {
      id := nextId;
      nextId := nextId + 1;
    }
  }
}
