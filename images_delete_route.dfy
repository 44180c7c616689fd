/** `api/images/delete`: removes a batch of objects from the bucket; no
  * document is read or written. */
module ImagesDeleteRoute {
  import opened Wrappers
  import opened Records
  import opened Http
  import opened Database
  import opened StorageService

  /** The answer before the batch delete, if any. `body` is `None` when the
    * body is `null`; `images` is `None` when the key is absent. */
  function Rejection(token: bool, svc: Config, body: Option<Option<seq<StoredImage>>>): (r: Option<Response<()>>)
    ensures !token ==> r == Some(Unauthorized())
    ensures token && body.None? ==> r == Some(Response(400, Error("Request data/body is missing")))
    ensures token && body.Some? && (body.value.None? || |body.value.value| == 0) ==>
      r == Some(Response(400, Error("Images to be deleted are missing")))
    ensures token && body.Some? && body.value.Some? && |body.value.value| > 0 && !Complete(svc) ==>
      r == Some(Response(500, Error("A credential/property is missing")))
    ensures r.None? <==> token && body.Some? && body.value.Some? && |body.value.value| > 0 && Complete(svc)
  {
    if !token then Some(Unauthorized())
    else if body.None? then Some(Response(400, Error("Request data/body is missing")))
    else if body.value.None? || |body.value.value| == 0 then Some(Response(400, Error("Images to be deleted are missing")))
    else if !Complete(svc) then Some(Response(500, Error("A credential/property is missing")))
    else None
  }

  /** `images.map(image => ({Key: image.Key}))`: the keys, in order, with the
    * links dropped. */
  function Identifiers(images: seq<StoredImage>): (keys: seq<string>)
    ensures |keys| == |images|
    ensures forall i :: 0 <= i < |images| ==> keys[i] == images[i].key
  {
    seq(|images|, i requires 0 <= i < |images| => images[i].key)
  }

  /** POST. Any failure of the batch request is reported with one fixed
    * message. */
  method Post(st: Store, token: bool, svc: Config, body: Option<Option<seq<StoredImage>>>, faults: Faults)
    returns (r: Response<()>)
    modifies st`objects
    ensures Rejection(token, svc, body).Some? ==> r == Rejection(token, svc, body).value && st.objects == old(st.objects)
    ensures Rejection(token, svc, body).None? && DeleteObjects in faults ==>
      r == Response(500, Error("An error occurred while deleting one or more images")) && st.objects == old(st.objects)
    ensures Rejection(token, svc, body).None? && DeleteObjects !in faults ==>
      && r == Response(200, Success)
      && st.objects == old(st.objects) - (set img | img in body.value.value :: img.key)
  {
    var rejection := Rejection(token, svc, body);
    if rejection.Some? {
      return rejection.value;
    }
    var images := body.value.value;
    var keys := Identifiers(images);
    var deleted := DeleteS3Items(st, keys, faults);
    if deleted.Thrown? {
      return Response(500, Error("An error occurred while deleting one or more images"));
    }
    assert (set k | k in keys) == (set img | img in images :: img.key) by {
      forall k | k in keys ensures k in (set img | img in images :: img.key) {
        var i :| 0 <= i < |keys| && keys[i] == k;
        assert images[i] in images;
      }
      forall img | img in images ensures img.key in keys {
        var i :| 0 <= i < |images| && images[i] == img;
        assert keys[i] == img.key;
      }
    }
    return Response(200, Success);
  }

  /** GET is not supported. */
  function Get(token: bool): (r: Response<()>)
    ensures r.status == (if token then 405 else 401)
  {
    if !token then Unauthorized() else NotSupported("GET")
  }
}
