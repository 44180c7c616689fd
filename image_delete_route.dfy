/** `api/image/delete`: removes one image of a product, first from the
  * bucket and then from the product's `images`. */
module ImageDeleteRoute {
  import opened Wrappers
  import opened Records
  import opened Http
  import opened Collections
  import opened Database
  import opened StorageService

  /** The JSON body; `None` when it is `null`. */
  datatype Request = Request(id: Option<Id>, image: Option<StoredImage>)

  /** The answer before any deletion, if any. The body is destructured
    * before it is checked, so a `null` body is an unhandled error and the
    * "body is missing" answer can never be given. */
  function Rejection(token: bool, svc: Config, body: Option<Request>): (r: Option<Response<()>>)
    ensures !token ==> r == Some(Unauthorized())
    ensures token && body.None? ==> r.Some? && r.value.status == 500 && r.value.body.Unhandled?
    ensures token && body.Some? && body.value.id.None? ==> r == Some(Response(400, Error("Id is missing")))
    ensures token && body.Some? && body.value.id.Some? && body.value.image.None? ==>
      r == Some(Response(400, Error("Image to delete is missing")))
    ensures token && body.Some? && body.value.id.Some? && body.value.image.Some? && !Complete(svc) ==>
      r == Some(Response(500, Error("A credential/property is missing")))
    ensures r.None? <==> token && body.Some? && body.value.id.Some? && body.value.image.Some? && Complete(svc)
    ensures r.Some? ==> r.value.body != Error("Request data/body is missing")
  {
    if !token then Some(Unauthorized())
    else if body.None? then Some(Response(500, Unhandled("Cannot destructure property 'id' of 'body' as it is null.")))
    else if body.value.id.None? then Some(Response(400, Error("Id is missing")))
    else if body.value.image.None? then Some(Response(400, Error("Image to delete is missing")))
    else if !Complete(svc) then Some(Response(500, Error("A credential/property is missing")))
    else None
  }

  /** `$pull: {images: {Key: key}}`: every image with that key goes. */
  function WithoutKey(images: seq<StoredImage>, key: string): (r: seq<StoredImage>)
    ensures forall k :: 0 <= k < |r| ==> r[k] in images && r[k].key != key
    ensures forall k :: 0 <= k < |images| && images[k].key != key ==> images[k] in r
    ensures forall img :: multiset(r)[img] == if img.key != key then multiset(images)[img] else 0
  {
    FilterCounts(images, (img: StoredImage) => img.key != key);
    Filter(images, (img: StoredImage) => img.key != key)
  }

  /** The images that stay keep their order, so the first of them is still
    * the one the list shows first. */
  lemma WithoutKeyKeepsOrder(front: seq<StoredImage>, back: seq<StoredImage>, key: string)
    ensures WithoutKey(front + back, key) == WithoutKey(front, key) + WithoutKey(back, key)
  {
    FilterAppend(front, back, (img: StoredImage) => img.key != key);
  }

  /** `Product.updateOne({_id: id}, {$pull: ...})`: only the product with
    * that id loses the image; no other collection is searched. */
  function PulledFrom(products: seq<Product>, id: Id, key: string): (r: seq<Product>)
    ensures |r| == |products|
    ensures forall i :: 0 <= i < |r| && products[i].id != id ==> r[i] == products[i]
    ensures forall i :: 0 <= i < |r| && products[i].id == id && (forall j :: 0 <= j < i ==> products[j].id != id) ==>
      r[i] == products[i].(images := WithoutKey(products[i].images, key))
    ensures (forall i :: 0 <= i < |products| ==> products[i].id != id) ==> r == products
  {
    UpdateFirst(products, (p: Product) => p.id == id, (p: Product) => p.(images := WithoutKey(p.images, key)))
  }

  /** POST. There is no check that the product keeps an image. If the pull
    * fails, the object is already gone and the product still names it. */
  method Post(st: Store, token: bool, svc: Config, body: Option<Request>, faults: Faults) returns (r: Response<()>)
    modifies st
    ensures Rejection(token, svc, body).Some? ==>
      r == Rejection(token, svc, body).value && st.Docs() == old(st.Docs()) && st.objects == old(st.objects)
    ensures Rejection(token, svc, body).None? ==>
      var id := body.value.id.value;
      var key := body.value.image.value.key;
      if DeleteObject in faults then
        r == Response(503, Error(faults[DeleteObject])) && st.Docs() == old(st.Docs()) && st.objects == old(st.objects)
      else
        && st.objects == old(st.objects) - {key}
        && if Update in faults then
             r == Response(503, Error(faults[Update])) && st.Docs() == old(st.Docs())
           else
             r == Response(200, Success) && st.Docs() == old(st.Docs()).(products := PulledFrom(old(st.products), id, key))
  {
    var rejection := Rejection(token, svc, body);
    if rejection.Some? {
      return rejection.value;
    }
    var key := body.value.image.value.key;
    var deleted := DeleteS3Item(st, key, faults);
    if deleted.Thrown? {
      return Response(503, Error(deleted.error));
    }
    if Update in faults {
      return Response(503, Error(faults[Update]));
    }
    st.products := PulledFrom(st.products, body.value.id.value, key);
    return Response(200, Success);
  }

  /** GET is not supported. */
  function Get(token: bool): (r: Response<()>)
    ensures r.status == (if token then 405 else 401)
  {
    if !token then Unauthorized() else NotSupported("GET")
  }
}
