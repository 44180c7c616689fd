/** `api/promocodes/save` and `api/promocodes/edit`. */
module PromocodeRoutes {
  import opened Wrappers
  import opened Records
  import opened Http
  import opened Collections
  import opened Database

  datatype SaveBody = SaveBody(code: Option<string>, validUntil: Option<string>, discountPercent: Option<int>)

  /** All three must be truthy, so a discount of 0 is refused; nothing
    * checks the discount's range or the date's format. */
  function SaveChecks(b: SaveBody): seq<Check>
  {
    [ Check(Truthy(b.code), "code key is missing"),
      Check(Truthy(b.validUntil), "validUntil key is missing"),
      Check(TruthyNumber(b.discountPercent), "discountPercent key is missing") ]
  }

  predicate SavePasses(b: SaveBody)
  {
    Truthy(b.code) && Truthy(b.validUntil) && TruthyNumber(b.discountPercent)
  }

  function SaveRejection(token: bool, b: SaveBody): (r: Option<Response<()>>)
    ensures !token ==> r == Some(Unauthorized())
    ensures token && !Truthy(b.code) ==> r == Some(Response(400, Error("code key is missing")))
    ensures token && Truthy(b.code) && !Truthy(b.validUntil) ==> r == Some(Response(400, Error("validUntil key is missing")))
    ensures token && Truthy(b.code) && Truthy(b.validUntil) && !TruthyNumber(b.discountPercent) ==>
      r == Some(Response(400, Error("discountPercent key is missing")))
    ensures r.None? <==> token && SavePasses(b)
  {
    if !token then Some(Unauthorized())
    else
      assert SaveChecks(b)[0].message == "code key is missing";
      assert SaveChecks(b)[1].message == "validUntil key is missing";
      assert SaveChecks(b)[2].message == "discountPercent key is missing";
      Guard(SaveChecks(b))
  }

  function FirstWithCode(codes: seq<Promocode>, code: string): (r: Option<nat>)
    ensures r.Some? ==> r.value < |codes| && codes[r.value].code == code
    ensures r.None? <==> forall j :: 0 <= j < |codes| ==> codes[j].code != code
  {
    FirstIndex(codes, (p: Promocode) => p.code == code)
  }

  function NewPromocode(id: Id, b: SaveBody, loadTime: nat): (p: Promocode)
    requires SavePasses(b)
    ensures p.id == id && p.code == b.code.value && p.validUntil == b.validUntil.value
    ensures p.discountPercent == b.discountPercent.value && p.created == loadTime && p.updated == loadTime
  {
    Promocode(id, b.code.value, b.validUntil.value, b.discountPercent.value, loadTime, loadTime)
  }

  /** POST `promocodes/save`. */
  method Save(st: Store, token: bool, b: SaveBody, faults: Faults) returns (r: Response<()>)
    modifies st
    ensures st.objects == old(st.objects)
    ensures SaveRejection(token, b).Some? ==> r == SaveRejection(token, b).value && st.Docs() == old(st.Docs())
    ensures SaveRejection(token, b).None? ==>
      if Find in faults then
        r == Caught(faults[Find], "Promo code already exists") && st.Docs() == old(st.Docs())
      else if FirstWithCode(old(st.promocodes), b.code.value).Some? then
        r == Response(409, Error("Promo code already exists")) && st.Docs() == old(st.Docs())
      else if Create in faults then
        r == Caught(faults[Create], "Promo code already exists") && st.Docs() == old(st.Docs())
      else
        && r == Response(201, Success)
        && st.Docs() == old(st.Docs()).(promocodes := old(st.promocodes) + [NewPromocode(old(st.nextId), b, st.loadTime)])
  {
    var rejection := SaveRejection(token, b);
    if rejection.Some? {
      return rejection.value;
    }
    if Find in faults {
      return Caught(faults[Find], "Promo code already exists");
    }
    if FirstWithCode(st.promocodes, b.code.value).Some? {
      return Response(409, Error("Promo code already exists"));
    }
    if Create in faults {
      return Caught(faults[Create], "Promo code already exists");
    }
    var id := st.FreshId();
    st.promocodes := st.promocodes + [NewPromocode(id, b, st.loadTime)];
    return Response(201, Success);
  }

  /** The fields the edit reads from its body; a `code` sent along is
    * ignored. */
  datatype EditBody = EditBody(id: Option<Id>, validUntil: Option<string>, discountPercent: Option<int>)

  function EditChecks(b: EditBody): seq<Check>
  {
    [ Check(b.id.Some?, "_id key is missing"),
      Check(Truthy(b.validUntil), "validUntil key is missing"),
      Check(TruthyNumber(b.discountPercent), "discountPercent key is missing") ]
  }

  predicate EditPasses(b: EditBody)
  {
    b.id.Some? && Truthy(b.validUntil) && TruthyNumber(b.discountPercent)
  }

  function FirstWithId(codes: seq<Promocode>, id: Id): (r: Option<nat>)
    ensures r.Some? ==> r.value < |codes| && codes[r.value].id == id
    ensures r.None? <==> forall j :: 0 <= j < |codes| ==> codes[j].id != id
  {
    FirstIndex(codes, (p: Promocode) => p.id == id)
  }

  function EditRejection(token: bool, b: EditBody, codes: seq<Promocode>, faults: Faults): (r: Option<Response<()>>)
    ensures !token ==> r == Some(Unauthorized())
    ensures token && b.id.None? ==> r == Some(Response(400, Error("_id key is missing")))
    ensures token && b.id.Some? && !Truthy(b.validUntil) ==> r == Some(Response(400, Error("validUntil key is missing")))
    ensures token && b.id.Some? && Truthy(b.validUntil) && !TruthyNumber(b.discountPercent) ==>
      r == Some(Response(400, Error("discountPercent key is missing")))
    ensures token && EditPasses(b) && Find in faults ==> r == Some(Response(500, Unhandled(faults[Find])))
    ensures token && EditPasses(b) && Find !in faults && FirstWithId(codes, b.id.value).None? ==>
      r == Some(Response(409, Error("Promocode no longer exists")))
    ensures r.None? <==> token && EditPasses(b) && Find !in faults && FirstWithId(codes, b.id.value).Some?
  {
    if !token then Some(Unauthorized())
    else if Guard<()>(EditChecks(b)).Some? then
      assert EditChecks(b)[0].message == "_id key is missing";
      assert EditChecks(b)[1].message == "validUntil key is missing";
      assert EditChecks(b)[2].message == "discountPercent key is missing";
      Guard(EditChecks(b))
    else
      assert EditPasses(b) by {
        assert EditChecks(b)[0].passes && EditChecks(b)[1].passes && EditChecks(b)[2].passes;
      }
      if Find in faults then Some(Response(500, Unhandled(faults[Find])))
      else if FirstWithId(codes, b.id.value).None? then Some(Response(409, Error("Promocode no longer exists")))
      else None
  }

  /** Only `validUntil`, the discount and `updated` change. */
  function Edited(p: Promocode, b: EditBody, now: nat): (e: Promocode)
    requires EditPasses(b)
    ensures e.id == p.id && e.code == p.code && e.created == p.created
    ensures e.validUntil == b.validUntil.value && e.discountPercent == b.discountPercent.value && e.updated == now
  {
    p.(validUntil := b.validUntil.value, discountPercent := b.discountPercent.value, updated := now)
  }

  function Rewritten(codes: seq<Promocode>, b: EditBody, now: nat): (r: seq<Promocode>)
    requires EditPasses(b)
    ensures |r| == |codes|
    ensures forall i :: 0 <= i < |r| && FirstWithId(codes, b.id.value) != Some(i) ==> r[i] == codes[i]
    ensures forall i :: FirstWithId(codes, b.id.value) == Some(i) ==> r[i] == Edited(codes[i], b, now)
  {
    UpdateFirst(codes, (p: Promocode) => p.id == b.id.value, (p: Promocode) => Edited(p, b, now))
  }

  /** POST `promocodes/edit`. */
  method Edit(st: Store, token: bool, b: EditBody, now: nat, faults: Faults) returns (r: Response<()>)
    modifies st`promocodes
    ensures EditRejection(token, b, old(st.promocodes), faults).Some? ==>
      r == EditRejection(token, b, old(st.promocodes), faults).value && st.promocodes == old(st.promocodes)
    ensures EditRejection(token, b, old(st.promocodes), faults).None? && Update in faults ==>
      r == Response(503, Error(faults[Update])) && st.promocodes == old(st.promocodes)
    ensures EditRejection(token, b, old(st.promocodes), faults).None? && Update !in faults ==>
      r == Response(200, Success) && st.promocodes == Rewritten(old(st.promocodes), b, now)
  {
    var rejection := EditRejection(token, b, st.promocodes, faults);
    if rejection.Some? {
      return rejection.value;
    }
    if Update in faults {
      return Response(503, Error(faults[Update]));
    }
    st.promocodes := Rewritten(st.promocodes, b, now);
    return Response(200, Success);
  }

  /** An edit never changes any code: every code stored before is stored
    * after, at the same place. */
  lemma EditKeepsCodes(codes: seq<Promocode>, b: EditBody, now: nat)
    requires EditPasses(b)
    ensures forall i :: 0 <= i < |codes| ==> Rewritten(codes, b, now)[i].code == codes[i].code
  {
    var r := Rewritten(codes, b, now);
    forall i | 0 <= i < |codes| ensures r[i].code == codes[i].code {
      if FirstWithId(codes, b.id.value) == Some(i) {
        assert r[i] == Edited(codes[i], b, now);
      }
    }
  }

  /** GET on either route is not supported. */
  function Get(token: bool): (r: Response<()>)
    ensures r.status == (if token then 405 else 401)
  {
    if !token then Unauthorized() else NotSupported("GET")
  }
}
