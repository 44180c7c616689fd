/** `api/products/edit`: rewrites a product from a multipart form inside a
  * transaction, appending at most one new image. */
module ProductsEditRoute {
  import opened Wrappers
  import opened Records
  import opened Http
  import opened Collections
  import opened Database
  import opened StorageService
  import ProductsSaveRoute

  /** The form. Numbers are taken as already converted; a missing key is
    * `None`. `currency` is read but never checked. */
  datatype Form = Form(
    id: Option<Id>, name: Option<string>, brand: Option<string>, description: Option<string>,
    contents: Option<string>, price: Option<int>, category: Option<string>,
    properties: Option<Json<map<string, string>>>, discount: Option<int>, stock: Option<int>,
    currency: Option<string>, rest: seq<Entry>)

  /** The key guards, in the order the route runs them. */
  function Checks(f: Form): seq<Check>
  {
    [ Check(f.id.Some?, "productId key is missing"),
      Check(f.name.Some?, "productName key is missing"),
      Check(f.brand.Some?, "productBrand key is missing"),
      Check(f.description.Some?, "productDescription key is missing"),
      Check(f.contents.Some?, "productContents key is missing"),
      Check(f.price.Some?, "productPrice key is missing"),
      Check(f.category.Some?, "categoryName key is missing"),
      Check(f.properties.Some?, "currentProperties key is missing"),
      Check(f.discount.Some?, "discount key is missing"),
      Check(f.stock.Some?, "stock key is missing"),
      Check(f.properties != Some(UndefinedText), "currentProperties must have a non-null value") ]
  }

  predicate WellFormed(f: Form)
  {
    && f.id.Some? && f.name.Some? && f.brand.Some? && f.description.Some? && f.contents.Some?
    && f.price.Some? && f.category.Some? && f.properties.Some? && f.properties.value.Json?
    && f.discount.Some? && f.stock.Some?
  }

  /** The 400 answer of the key guards, if any. */
  function KeyRejection(f: Form): (r: Option<Response<()>>)
    ensures f.id.None? ==> r == Some(Response(400, Error("productId key is missing")))
    ensures f.id.Some? ==> r == Guard(Checks(f))
    ensures r.None? <==> WellFormed(f)
    ensures r.Some? ==> r.value.status == 400
  {
    var checks := Checks(f);
    if !checks[0].passes then
      Some(Response(400, Error(checks[0].message)))
    else
      assert WellFormed(f) <==> forall i :: 0 <= i < |checks| ==> checks[i].passes by {
        if forall i :: 0 <= i < |checks| ==> checks[i].passes {
          assert checks[1].passes && checks[2].passes && checks[3].passes && checks[4].passes;
          assert checks[5].passes && checks[6].passes && checks[7].passes && checks[8].passes;
          assert checks[9].passes && checks[10].passes;
        }
      }
      Guard(checks)
  }

  /** The answer the route gives before its transaction starts, if any. The
    * connection is checked first, and its failure is answered with the
    * caught Error object itself; the lookup by name runs outside any
    * `try`, so a failing `findOne` is an unhandled error. */
  function Rejection(token: bool, f: Form, products: seq<Product>, faults: Faults): (r: Option<Response<()>>)
    ensures !token ==> r == Some(Unauthorized())
    ensures token && Connect in faults ==> r == Some(Response(503, ErrorObject))
    ensures token && Connect !in faults && f.id.None? ==> r == Some(Response(400, Error("productId key is missing")))
    ensures token && Connect !in faults && !WellFormed(f) ==> r == KeyRejection(f)
    ensures token && Connect !in faults && !WellFormed(f) ==> r.Some? && r.value.status == 400
    ensures token && Connect !in faults && WellFormed(f) && Find in faults ==>
      r == Some(Response(500, Unhandled(faults[Find])))
    ensures token && Connect !in faults && WellFormed(f) && Find !in faults
            && ProductsSaveRoute.FirstProductNamed(products, f.name.value).None? ==>
      r == Some(Response(409, Error("Product " + f.name.value + " no longer exists")))
    ensures token && Connect !in faults && WellFormed(f) && Find !in faults
            && ProductsSaveRoute.FirstProductNamed(products, f.name.value).Some?
            && |products[ProductsSaveRoute.FirstProductNamed(products, f.name.value).value].images| == 0
            && |ImageFiles(f.rest)| == 0 ==>
      r == Some(Response(400, Error("Please upload at least one image. No image is saved")))
    ensures r.None? <==>
      && token && Connect !in faults && WellFormed(f) && Find !in faults
      && ProductsSaveRoute.FirstProductNamed(products, f.name.value).Some?
      && (|products[ProductsSaveRoute.FirstProductNamed(products, f.name.value).value].images| > 0
          || |ImageFiles(f.rest)| > 0)
  {
    if !token then Some(Unauthorized())
    else if Connect in faults then Some(Response(503, ErrorObject))
    else if KeyRejection(f).Some? then KeyRejection(f)
    else
      if Find in faults then Some(Response(500, Unhandled(faults[Find])))
      else
        match ProductsSaveRoute.FirstProductNamed(products, f.name.value)
        case None => Some(Response(409, Error("Product " + f.name.value + " no longer exists")))
        case Some(i) =>
          if |products[i].images| == 0 && |ImageFiles(f.rest)| == 0 then
            Some(Response(400, Error("Please upload at least one image. No image is saved")))
          else None
  }

  /** The fields `updateOne` writes. `name`, `created` and the id never
    * change; an absent currency leaves the stored one; `images` is written
    * only when given. */
  function Rewrite(p: Product, f: Form, images: Option<seq<StoredImage>>, now: nat): (q: Product)
    requires WellFormed(f)
    ensures q.id == p.id && q.name == p.name && q.created == p.created && q.updated == now
    ensures q.images == (if images.Some? then images.value else p.images)
    ensures q.price == f.price.value && q.properties == f.properties.value.value
    ensures q.currency == (if f.currency.Some? then f.currency.value else p.currency)
  {
    p.(brand := f.brand.value, description := f.description.value, contents := f.contents.value,
       price := f.price.value, images := images.GetOr(p.images), category := f.category.value,
       properties := f.properties.value.value, discount := f.discount.value, stock := f.stock.value,
       currency := f.currency.GetOr(p.currency), updated := now)
  }

  /** `Product.updateOne({_id: id}, ...)`: the first product with that id is
    * rewritten, every other product and every name stay as they are. */
  function UpdatedById(products: seq<Product>, f: Form, images: Option<seq<StoredImage>>, now: nat): (r: seq<Product>)
    requires WellFormed(f)
    ensures |r| == |products|
    ensures forall i :: 0 <= i < |r| ==> r[i].name == products[i].name && r[i].id == products[i].id
    ensures forall i :: 0 <= i < |r| && products[i].id != f.id.value ==> r[i] == products[i]
    ensures forall i :: 0 <= i < |r| && products[i].id == f.id.value && (forall j :: 0 <= j < i ==> products[j].id != f.id.value) ==>
      r[i] == Rewrite(products[i], f, images, now)
  {
    UpdateFirst(products, (p: Product) => p.id == f.id.value, (p: Product) => Rewrite(p, f, images, now))
  }

  /** POST. The product is found by name but updated by id, with the images
    * of the product found by name followed by the link `saveFilesToS3`
    * returns for the first file. A thrown error undoes the documents but
    * not the upload. */
  method Post(st: Store, token: bool, svc: Config, f: Form, now: nat, faults: Faults) returns (r: Response<()>)
    modifies st
    ensures Rejection(token, f, old(st.products), faults).Some? ==>
      && r == Rejection(token, f, old(st.products), faults).value
      && st.Docs() == old(st.Docs()) && st.objects == old(st.objects)
    ensures Rejection(token, f, old(st.products), faults).None? ==>
      var product := old(st.products)[ProductsSaveRoute.FirstProductNamed(old(st.products), f.name.value).value];
      var files := ImageFiles(f.rest);
      if |files| > 0 && PutObject in faults then
        r == Caught(faults[PutObject], "Product already exists") && st.Docs() == old(st.Docs()) && st.objects == old(st.objects)
      else
        var images := if |files| > 0 then Some(product.images + [ImageFor(svc, now, files[0])]) else None;
        && st.objects == old(st.objects) + (if |files| > 0 then {ObjectKey(now, files[0].name)} else {})
        && if Update in faults then
             r == Caught(faults[Update], "Product already exists") && st.Docs() == old(st.Docs())
           else
             && r == Response(201, Success)
             && st.Docs() == old(st.Docs()).(products := UpdatedById(old(st.products), f, images, now))
  {
    var rejection := Rejection(token, f, st.products, faults);
    if rejection.Some? {
      return rejection.value;
    }
    var product := st.products[ProductsSaveRoute.FirstProductNamed(st.products, f.name.value).value];
    r := Transact(st, svc, f, product, now, faults);
  }

  /** The transaction: the upload of the first file, if any, then the
    * update by id. */
  method Transact(st: Store, svc: Config, f: Form, product: Product, now: nat, faults: Faults) returns (r: Response<()>)
    requires WellFormed(f)
    modifies st
    ensures var files := ImageFiles(f.rest);
      if |files| > 0 && PutObject in faults then
        r == Caught(faults[PutObject], "Product already exists") && st.Docs() == old(st.Docs()) && st.objects == old(st.objects)
      else
        var images := if |files| > 0 then Some(product.images + [ImageFor(svc, now, files[0])]) else None;
        && st.objects == old(st.objects) + (if |files| > 0 then {ObjectKey(now, files[0].name)} else {})
        && if Update in faults then
             r == Caught(faults[Update], "Product already exists") && st.Docs() == old(st.Docs())
           else
             && r == Response(201, Success)
             && st.Docs() == old(st.Docs()).(products := UpdatedById(old(st.products), f, images, now))
  {
    var files := ImageFiles(f.rest);
    var snapshot := st.Docs();
    var images: Option<seq<StoredImage>> := None;
    if |files| > 0 {
      var imageLinks := SaveFilesToS3(st, svc, files, now, faults);
      if imageLinks.Thrown? {
        st.Restore(snapshot);
        return Caught(imageLinks.error, "Product already exists");
      }
      images := Some(product.images + imageLinks.value.value);
    }
    if Update in faults {
      st.Restore(snapshot);
      return Caught(faults[Update], "Product already exists");
    }
    st.products := UpdatedById(st.products, f, images, now);
    return Response(201, Success);
  }

  /** GET is not supported. */
  function Get(token: bool): (r: Response<()>)
    ensures r.status == (if token then 405 else 401)
  {
    if !token then Unauthorized() else NotSupported("GET")
  }
}
