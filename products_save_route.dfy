/** `api/products/save`: creates a product from a multipart form after
  * uploading every image it carries. There is no transaction. */
module ProductsSaveRoute {
  import opened Wrappers
  import opened Records
  import opened Http
  import opened Collections
  import opened Database
  import opened StorageService
  import opened InlineUpload

  /** The form. Numbers are taken as already converted; a missing key is
    * `None`. The `currency` entry the page sends is never read. */
  datatype Form = Form(
    name: Option<string>, brand: Option<string>, description: Option<string>, contents: Option<string>,
    price: Option<int>, category: Option<string>, properties: Option<Json<map<string, string>>>,
    discount: Option<int>, stock: Option<int>, rest: seq<Entry>)

  /** The key guards, in the order the route runs them. */
  function Checks(f: Form): seq<Check>
  {
    [ Check(f.name.Some?, "productName key is missing"),
      Check(f.brand.Some?, "productBrand key is missing"),
      Check(f.description.Some?, "productDescription key is missing"),
      Check(f.contents.Some?, "productContents key is missing"),
      Check(f.price.Some?, "productPrice key is missing"),
      Check(f.category.Some?, "categoryName key is missing"),
      Check(f.properties.Some?, "currentProperties key is missing"),
      Check(f.discount.Some?, "discount key is missing"),
      Check(f.stock.Some?, "stock key is missing") ]
  }

  predicate HasAllKeys(f: Form)
  {
    && f.name.Some? && f.brand.Some? && f.description.Some? && f.contents.Some? && f.price.Some?
    && f.category.Some? && f.properties.Some? && f.discount.Some? && f.stock.Some?
  }

  /** The key guards all pass exactly when every key is present. */
  lemma ChecksPassExactly(f: Form)
    ensures Guard<()>(Checks(f)).None? <==> HasAllKeys(f)
    ensures Checks(f)[0].message == "productName key is missing"
  {
    var c := Checks(f);
    assert HasAllKeys(f) <==> c[0].passes && c[1].passes && c[2].passes && c[3].passes && c[4].passes
                              && c[5].passes && c[6].passes && c[7].passes && c[8].passes;
  }

  /** The answer the route gives before its `try` block, if any: the login
    * check, the key guards, the crash of `JSON.parse('undefined')`, the image
    * count and the storage configuration. */
  function Rejection(token: bool, svc: Config, f: Form): (r: Option<Response<()>>)
    ensures !token ==> r == Some(Unauthorized())
    ensures token && f.name.None? ==> r == Some(Response(400, Error("productName key is missing")))
    ensures token && Guard<()>(Checks(f)).Some? ==> r == Guard(Checks(f))
    ensures token && HasAllKeys(f) && f.properties.value.UndefinedText? ==> r == Some(ParseCrash())
    ensures token && HasAllKeys(f) && f.properties.value.Json? && |ImageFiles(f.rest)| == 0 ==>
      r == Some(Response(400, Error("Please upload at least one image")))
    ensures token && HasAllKeys(f) && f.properties.value.Json? && |ImageFiles(f.rest)| > 0 && !Complete(svc) ==>
      r == Some(Response(500, Error("A credential/property is missing")))
    ensures r.None? <==>
      token && HasAllKeys(f) && f.properties.value.Json? && |ImageFiles(f.rest)| > 0 && Complete(svc)
    ensures token && !HasAllKeys(f) ==> r.Some? && r.value.status == 400
  {
    if !token then Some(Unauthorized())
    else
      ChecksPassExactly(f);
      if Guard<()>(Checks(f)).Some? then Guard(Checks(f))
      else if f.properties.value.UndefinedText? then Some(ParseCrash())
      else if |ImageFiles(f.rest)| == 0 then Some(Response(400, Error("Please upload at least one image")))
      else if !Complete(svc) then Some(Response(500, Error("A credential/property is missing")))
      else None
  }

  /** Index of the first product called `name`. */
  function FirstProductNamed(products: seq<Product>, name: string): (r: Option<nat>)
    ensures r.Some? ==> r.value < |products| && products[r.value].name == name
    ensures r.None? <==> forall j :: 0 <= j < |products| ==> products[j].name != name
  {
    FirstIndex(products, (p: Product) => p.name == name)
  }

  /** The catch: 409 for a thrown 'Product already exists', 503 otherwise. */
  const Duplicate := "Product already exists"

  /** POST. Inside the `try`: the dedup lookup by name, the upload of every
    * file, then `Product.create` without `currency`, which fails the
    * schema's required validator, so no product is ever written and the
    * uploaded objects stay in the bucket. */
  method Post(st: Store, token: bool, svc: Config, f: Form, times: seq<nat>, faults: Faults, failAt: nat)
    returns (r: Response<()>)
    requires |times| == |ImageFiles(f.rest)|
    modifies st
    ensures st.Docs() == old(st.Docs())
    ensures r.status != 201
    ensures Rejection(token, svc, f).Some? ==>
      r == Rejection(token, svc, f).value && st.objects == old(st.objects)
    ensures Rejection(token, svc, f).None? && Find in faults ==>
      r == Caught(faults[Find], Duplicate) && st.objects == old(st.objects)
    ensures Rejection(token, svc, f).None? && Find !in faults && FirstProductNamed(old(st.products), f.name.value).Some? ==>
      r == Response(409, Error(Duplicate)) && st.objects == old(st.objects)
    ensures Rejection(token, svc, f).None? && Find !in faults && FirstProductNamed(old(st.products), f.name.value).None? ==>
      var files := ImageFiles(f.rest);
      if UploadFails(files, faults, failAt) then
        && r == Caught(faults[PutObject], Duplicate)
        && st.objects == old(st.objects) + KeysOf(ImagesFor(svc, files[..failAt], times[..failAt]))
      else
        && r == Response(503, Error(ValidationMessage("products",
             MissingProductPaths(f.name.value, f.brand.value, f.description.value, f.contents.value, f.category.value, None))))
        && st.objects == old(st.objects) + KeysOf(ImagesFor(svc, files, times))
  {
    var rejection := Rejection(token, svc, f);
    if rejection.Some? {
      return rejection.value;
    }
    if Find in faults {
      return Caught(faults[Find], Duplicate);
    }
    if FirstProductNamed(st.products, f.name.value).Some? {
      return Caught(Duplicate, Duplicate);
    }
    r := UploadAndCreate(st, svc, f, times, faults, failAt);
  }

  /** The rest of the `try` block once no product has the name: the
    * uploads, then the `create` that always fails validation, whose
    * message is never the duplicate one. */
  /** A validation failure is never taken for the duplicate. */
  lemma ValidationIsNotDuplicate(paths: seq<string>)
    ensures ValidationMessage("products", paths) != Duplicate
  {
    assert ValidationMessage("products", paths)[0] == 'p' != Duplicate[0];
  }

  method UploadAndCreate(st: Store, svc: Config, f: Form, times: seq<nat>, faults: Faults, failAt: nat)
    returns (r: Response<()>)
    requires HasAllKeys(f) && f.properties.value.Json?
    requires |times| == |ImageFiles(f.rest)| > 0
    modifies st
    ensures st.Docs() == old(st.Docs())
    ensures UploadFails(ImageFiles(f.rest), faults, failAt) ==>
      && r == Caught(faults[PutObject], Duplicate)
      && st.objects == old(st.objects) + KeysOf(ImagesFor(svc, ImageFiles(f.rest)[..failAt], times[..failAt]))
    ensures !UploadFails(ImageFiles(f.rest), faults, failAt) ==>
      && r == Response(503, Error(ValidationMessage("products",
           MissingProductPaths(f.name.value, f.brand.value, f.description.value, f.contents.value, f.category.value, None))))
      && st.objects == old(st.objects) + KeysOf(ImagesFor(svc, ImageFiles(f.rest), times))
  {
    ghost var docs := st.Docs();
    var imageLinks := UploadEach(st, svc, ImageFiles(f.rest), times, faults, failAt);
    assert st.Docs() == docs;
    if imageLinks.Thrown? {
      return Caught(imageLinks.error, Duplicate);
    }
    var id := st.FreshId();
    var created := NewProduct(id, f.name.value, f.brand.value, f.description.value, f.contents.value, f.price.value,
                              imageLinks.value, f.category.value, f.properties.value.value,
                              f.discount, f.stock, None, st.loadTime);
    assert created.Thrown? && Written(created) == [];
    st.products := st.products + Written(created);
    assert st.Docs() == docs;
    if created.Ok? {
      r := Response(201, Success);
    } else {
      ValidationIsNotDuplicate(MissingProductPaths(f.name.value, f.brand.value, f.description.value, f.contents.value, f.category.value, None));
      r := Caught(created.error, Duplicate);
    }
  }

  /** GET is not supported. */
  function Get(token: bool): (r: Response<()>)
    ensures r.status == (if token then 405 else 401)
  {
    if !token then Unauthorized() else NotSupported("GET")
  }
}
