/** The read-only `fetch` routes of categories, products, currency rates,
  * promo codes and orders. A request carries an optional `id` query
  * parameter; without one the whole collection is returned. */
module FetchRoutes {
  import opened Wrappers
  import opened Records
  import opened Http
  import opened Collections
  import opened Database

  /** The `id` search parameter: absent (or empty), not a valid ObjectId,
    * or a valid one. */
  datatype IdQuery = NoId | Malformed | ObjectId(id: Id)

  /** What a successful fetch sends back. */
  datatype Found<T> = One(doc: T) | OneAndOthers(doc: T, others: seq<T>) | All(docs: seq<T>)

  /** POST on any fetch route: the login check, then 405. */
  function Post<T>(token: bool): (r: Response<T>)
    ensures !token ==> r == Unauthorized()
    ensures token ==> r == Response(405, Error("POST Method not supported"))
  {
    if !token then Unauthorized() else Response(405, Error("POST Method not supported"))
  }

  /** Index of the first document carrying `id`. */
  function FirstWithId<T>(docs: seq<T>, idOf: T -> Id, id: Id): (r: Option<nat>)
    ensures r.Some? ==>
      && r.value < |docs| && idOf(docs[r.value]) == id
      && forall j :: 0 <= j < r.value ==> idOf(docs[j]) != id
    ensures r.None? <==> forall j :: 0 <= j < |docs| ==> idOf(docs[j]) != id
  {
    FirstIndex(docs, d => idOf(d) == id)
  }

  /** GET of a single document by id, shared by the products, currency
    * rates, promo codes and orders routes, which differ only in their
    * messages and in the status of the "does not exist" answer. A failed
    * connection is ignored; a failing `find` answers 503. */
  function FetchById<T>(token: bool, docs: seq<T>, idOf: T -> Id, q: IdQuery, faults: Faults,
                        invalid: string, missing: string, missingStatus: int): (r: Response<Found<T>>)
    ensures !token ==> r == Unauthorized()
    ensures token && q.Malformed? ==> r == Response(404, Error(invalid))
    ensures token && !q.Malformed? && Find in faults ==> r == Response(503, Error(faults[Find]))
    ensures token && q.NoId? && Find !in faults ==> r == Response(200, Data(All(docs)))
    ensures token && q.ObjectId? && Find !in faults ==>
      && ((forall j :: 0 <= j < |docs| ==> idOf(docs[j]) != q.id) ==> r == Response(missingStatus, Error(missing)))
      && (forall i :: 0 <= i < |docs| && idOf(docs[i]) == q.id && (forall j :: 0 <= j < i ==> idOf(docs[j]) != q.id) ==>
            r == Response(200, Data(One(docs[i]))))
  {
    if !token then Unauthorized()
    else if q.Malformed? then Response(404, Error(invalid))
    else if Find in faults then Response(503, Error(faults[Find]))
    else if q.NoId? then Response(200, Data(All(docs)))
    else
      match FirstWithId(docs, idOf, q.id)
      case None => Response(missingStatus, Error(missing))
      case Some(i) => Response(200, Data(One(docs[i])))
  }

  /** Every category except those carrying `id`, in stored order. */
  function Others(cats: seq<Category>, id: Id): (r: seq<Category>)
    ensures forall k :: 0 <= k < |r| ==> r[k] in cats && r[k].id != id
    ensures forall k :: 0 <= k < |cats| && cats[k].id != id ==> cats[k] in r
    ensures forall c :: multiset(r)[c] == if c.id != id then multiset(cats)[c] else 0
  {
    FilterCounts(cats, (c: Category) => c.id != id);
    Filter(cats, (c: Category) => c.id != id)
  }

  /** The others keep the stored order. */
  lemma OthersKeepOrder(front: seq<Category>, back: seq<Category>, id: Id)
    ensures Others(front + back, id) == Others(front, id) + Others(back, id)
  {
    FilterAppend(front, back, (c: Category) => c.id != id);
  }

  /** GET `categories/fetch`: with an id, the first matching category
    * together with every other category (the edit page picks its parent
    * choices from these); a valid id with no match still answers 200. */
  function CategoriesGet(token: bool, cats: seq<Category>, q: IdQuery, faults: Faults): (r: Response<Found<Category>>)
    ensures !token ==> r == Unauthorized()
    ensures token && q.Malformed? ==> r == Response(404, Error("Invalid category id. Category does not exist"))
    ensures token && !q.Malformed? && Find in faults ==> r == Response(503, Error(faults[Find]))
    ensures token && q.NoId? && Find !in faults ==> r == Response(200, Data(All(cats)))
    ensures token && q.ObjectId? && Find !in faults ==>
      && r.status == 200
      && (r.body == Error("Category does not exist") <==> forall j :: 0 <= j < |cats| ==> cats[j].id != q.id)
      && (forall i :: FirstWithId(cats, (c: Category) => c.id, q.id) == Some(i) ==>
            r.body == Data(OneAndOthers(cats[i], Others(cats, q.id))))
  {
    if !token then Unauthorized()
    else if q.Malformed? then Response(404, Error("Invalid category id. Category does not exist"))
    else if Find in faults then Response(503, Error(faults[Find]))
    else if q.NoId? then Response(200, Data(All(cats)))
    else
      match FirstWithId(cats, (c: Category) => c.id, q.id)
      case None => Response(200, Error("Category does not exist"))
      case Some(i) => Response(200, Data(OneAndOthers(cats[i], Others(cats, q.id))))
  }

  /** The category a successful lookup returns is never among the others. */
  lemma FoundIsNotAmongOthers(cats: seq<Category>, q: IdQuery, faults: Faults)
    requires q.ObjectId? && Find !in faults
    requires CategoriesGet(true, cats, q, faults).body.Data?
    ensures var found := CategoriesGet(true, cats, q, faults).body.value;
      found.OneAndOthers? && found.doc.id == q.id && found.doc !in found.others
  {
  }

  /** GET `products/fetch`. */
  function ProductsGet(token: bool, products: seq<Product>, q: IdQuery, faults: Faults): (r: Response<Found<Product>>)
    ensures token && q.Malformed? ==> r == Response(404, Error("Invalid product id. Product does not exist"))
    ensures token && q.ObjectId? && Find !in faults && (forall j :: 0 <= j < |products| ==> products[j].id != q.id) ==>
      r == Response(200, Error("Product does not exist"))
  {
    FetchById(token, products, (p: Product) => p.id, q, faults,
              "Invalid product id. Product does not exist", "Product does not exist", 200)
  }

  /** GET `currencyRates/fetch`; its invalid-id message speaks of a
    * currency. */
  function CurrencyRatesGet(token: bool, rates: seq<CurrencyRate>, q: IdQuery, faults: Faults): (r: Response<Found<CurrencyRate>>)
    ensures token && q.Malformed? ==> r == Response(404, Error("Invalid currencyRate id. Currency does not exist"))
    ensures token && q.ObjectId? && Find !in faults && (forall j :: 0 <= j < |rates| ==> rates[j].id != q.id) ==>
      r == Response(200, Error("CurrencyRate does not exist"))
  {
    FetchById(token, rates, (c: CurrencyRate) => c.id, q, faults,
              "Invalid currencyRate id. Currency does not exist", "CurrencyRate does not exist", 200)
  }

  /** GET `promocodes/fetch`. */
  function PromocodesGet(token: bool, codes: seq<Promocode>, q: IdQuery, faults: Faults): (r: Response<Found<Promocode>>)
    ensures token && q.Malformed? ==> r == Response(404, Error("Invalid promocode id. Promocode does not exist"))
    ensures token && q.ObjectId? && Find !in faults && (forall j :: 0 <= j < |codes| ==> codes[j].id != q.id) ==>
      r == Response(200, Error("Promocode does not exist"))
  {
    FetchById(token, codes, (p: Promocode) => p.id, q, faults,
              "Invalid promocode id. Promocode does not exist", "Promocode does not exist", 200)
  }

  /** GET `orders/fetch`: unlike the others, an unknown id answers 400. */
  function OrdersGet(token: bool, orders: seq<Order>, q: IdQuery, faults: Faults): (r: Response<Found<Order>>)
    ensures token && q.Malformed? ==> r == Response(404, Error("Invalid order id. Order does not exist"))
    ensures token && q.ObjectId? && Find !in faults && (forall j :: 0 <= j < |orders| ==> orders[j].id != q.id) ==>
      r == Response(400, Error("Order does not exist"))
  {
    FetchById(token, orders, (o: Order) => o.id, q, faults,
              "Invalid order id. Order does not exist", "Order does not exist", 400)
  }
}
