/** `api/shippingRates/save` and `api/shippingRates/edit`: JSON bodies,
  * falsy-value guards and one write each. */
module ShippingRateRoutes {
  import opened Wrappers
  import opened Records
  import opened Http
  import opened Collections
  import opened Database

  datatype SaveBody = SaveBody(
    name: Option<string>, minimumDeliveryDays: Option<int>, maximumDeliveryDays: Option<int>, rate: Option<int>)

  /** The save guards: `name` and the minimum must be truthy, so a minimum of
    * 0 is refused, while `rate` only has to be present. */
  function SaveChecks(b: SaveBody): seq<Check>
  {
    [ Check(Truthy(b.name), "name key is missing"),
      Check(TruthyNumber(b.minimumDeliveryDays), "minimumDeliveryDays key is missing"),
      Check(b.rate.Some?, "rate key is missing") ]
  }

  predicate SavePasses(b: SaveBody)
  {
    Truthy(b.name) && TruthyNumber(b.minimumDeliveryDays) && b.rate.Some?
  }

  function SaveRejection(token: bool, b: SaveBody): (r: Option<Response<()>>)
    ensures !token ==> r == Some(Unauthorized())
    ensures token && !Truthy(b.name) ==> r == Some(Response(400, Error("name key is missing")))
    ensures token && Truthy(b.name) && !TruthyNumber(b.minimumDeliveryDays) ==>
      r == Some(Response(400, Error("minimumDeliveryDays key is missing")))
    ensures token && Truthy(b.name) && TruthyNumber(b.minimumDeliveryDays) && b.rate.None? ==>
      r == Some(Response(400, Error("rate key is missing")))
    ensures r.None? <==> token && SavePasses(b)
  {
    if !token then Some(Unauthorized())
    else
      assert SaveChecks(b)[0].message == "name key is missing";
      assert SaveChecks(b)[1].message == "minimumDeliveryDays key is missing";
      assert SaveChecks(b)[2].message == "rate key is missing";
      Guard(SaveChecks(b))
  }

  /** The created document: the maximum is kept only when it is truthy. */
  function NewShippingRate(id: Id, b: SaveBody, loadTime: nat): (s: ShippingRate)
    requires SavePasses(b)
    ensures s.id == id && s.name == b.name.value && s.minimumDeliveryDays == b.minimumDeliveryDays.value
    ensures s.rate == b.rate.value && s.created == loadTime && s.updated == loadTime
    ensures s.maximumDeliveryDays.Some? <==> TruthyNumber(b.maximumDeliveryDays)
    ensures s.maximumDeliveryDays.Some? ==> s.maximumDeliveryDays == b.maximumDeliveryDays
  {
    ShippingRate(id, b.name.value, b.minimumDeliveryDays.value,
                 if TruthyNumber(b.maximumDeliveryDays) then b.maximumDeliveryDays else None,
                 b.rate.value, loadTime, loadTime)
  }

  /** Index of the first shipping rate called `name`. */
  function FirstNamed(rates: seq<ShippingRate>, name: string): (r: Option<nat>)
    ensures r.Some? ==> r.value < |rates| && rates[r.value].name == name
    ensures r.None? <==> forall j :: 0 <= j < |rates| ==> rates[j].name != name
  {
    FirstIndex(rates, (s: ShippingRate) => s.name == name)
  }

  /** POST `shippingRates/save`: the dedup by name and the create run in the
    * `try`; nothing checks that the minimum is below the maximum. */
  method Save(st: Store, token: bool, b: SaveBody, faults: Faults) returns (r: Response<()>)
    modifies st
    ensures st.objects == old(st.objects)
    ensures SaveRejection(token, b).Some? ==> r == SaveRejection(token, b).value && st.Docs() == old(st.Docs())
    ensures SaveRejection(token, b).None? ==>
      if Find in faults then
        r == Caught(faults[Find], "ShippingRate already exists") && st.Docs() == old(st.Docs())
      else if FirstNamed(old(st.shippingRates), b.name.value).Some? then
        r == Response(409, Error("ShippingRate already exists")) && st.Docs() == old(st.Docs())
      else if Create in faults then
        r == Caught(faults[Create], "ShippingRate already exists") && st.Docs() == old(st.Docs())
      else
        && r == Response(201, Success)
        && st.Docs() == old(st.Docs()).(shippingRates := old(st.shippingRates) + [NewShippingRate(old(st.nextId), b, st.loadTime)])
  {
    var rejection := SaveRejection(token, b);
    if rejection.Some? {
      return rejection.value;
    }
    if Find in faults {
      return Caught(faults[Find], "ShippingRate already exists");
    }
    if FirstNamed(st.shippingRates, b.name.value).Some? {
      return Response(409, Error("ShippingRate already exists"));
    }
    if Create in faults {
      return Caught(faults[Create], "ShippingRate already exists");
    }
    var id := st.FreshId();
    st.shippingRates := st.shippingRates + [NewShippingRate(id, b, st.loadTime)];
    return Response(201, Success);
  }

  datatype EditBody = EditBody(
    id: Option<Id>, name: Option<string>, minimumDeliveryDays: Option<int>, maximumDeliveryDays: Option<int>,
    rate: Option<int>)

  function EditChecks(b: EditBody): seq<Check>
  {
    [ Check(b.id.Some?, "_id key is missing"),
      Check(Truthy(b.name), "name key is missing"),
      Check(TruthyNumber(b.minimumDeliveryDays), "minimumDeliveryDays key is missing"),
      Check(b.rate.Some?, "rate key is missing") ]
  }

  predicate EditPasses(b: EditBody)
  {
    b.id.Some? && Truthy(b.name) && TruthyNumber(b.minimumDeliveryDays) && b.rate.Some?
  }

  /** Index of the first shipping rate with this id. */
  function FirstWithId(rates: seq<ShippingRate>, id: Id): (r: Option<nat>)
    ensures r.Some? ==> r.value < |rates| && rates[r.value].id == id
    ensures r.None? <==> forall j :: 0 <= j < |rates| ==> rates[j].id != id
  {
    FirstIndex(rates, (s: ShippingRate) => s.id == id)
  }

  /** The answer before the `try`, if any; the lookup by id runs outside it. */
  function EditRejection(token: bool, b: EditBody, rates: seq<ShippingRate>, faults: Faults): (r: Option<Response<()>>)
    ensures !token ==> r == Some(Unauthorized())
    ensures token && b.id.None? ==> r == Some(Response(400, Error("_id key is missing")))
    ensures token && EditPasses(b) && Find in faults ==> r == Some(Response(500, Unhandled(faults[Find])))
    ensures token && EditPasses(b) && Find !in faults && FirstWithId(rates, b.id.value).None? ==>
      r == Some(Response(409, Error("ShippingRate no longer exists")))
    ensures r.None? <==> token && EditPasses(b) && Find !in faults && FirstWithId(rates, b.id.value).Some?
    ensures token && !EditPasses(b) ==> r.Some? && r.value.status == 400
  {
    if !token then Some(Unauthorized())
    else if Guard<()>(EditChecks(b)).Some? then
      assert EditChecks(b)[0].message == "_id key is missing";
      Guard(EditChecks(b))
    else
      assert EditPasses(b) by {
        assert EditChecks(b)[0].passes && EditChecks(b)[1].passes && EditChecks(b)[2].passes && EditChecks(b)[3].passes;
      }
      if Find in faults then Some(Response(500, Unhandled(faults[Find])))
      else if FirstWithId(rates, b.id.value).None? then Some(Response(409, Error("ShippingRate no longer exists")))
      else None
  }

  /** The fields the edit writes: the name it requires is never written, and
    * a maximum that is not positive becomes null. */
  function Edited(s: ShippingRate, b: EditBody, now: nat): (e: ShippingRate)
    requires EditPasses(b)
    ensures e.id == s.id && e.name == s.name && e.created == s.created && e.updated == now
    ensures e.minimumDeliveryDays == b.minimumDeliveryDays.value && e.rate == b.rate.value
    ensures e.maximumDeliveryDays.Some? <==> b.maximumDeliveryDays.Some? && b.maximumDeliveryDays.value > 0
    ensures e.maximumDeliveryDays.Some? ==> e.maximumDeliveryDays == b.maximumDeliveryDays
  {
    s.(minimumDeliveryDays := b.minimumDeliveryDays.value,
       maximumDeliveryDays := if b.maximumDeliveryDays.Some? && b.maximumDeliveryDays.value > 0 then b.maximumDeliveryDays else None,
       rate := b.rate.value, updated := now)
  }

  /** `updateOne({_id}, ...)`: the first rate with the id is edited, the
    * others stay. */
  function Rewritten(rates: seq<ShippingRate>, b: EditBody, now: nat): (r: seq<ShippingRate>)
    requires EditPasses(b)
    ensures |r| == |rates|
    ensures forall i :: 0 <= i < |r| && FirstWithId(rates, b.id.value) != Some(i) ==> r[i] == rates[i]
    ensures forall i :: FirstWithId(rates, b.id.value) == Some(i) ==> r[i] == Edited(rates[i], b, now)
  {
    UpdateFirst(rates, (s: ShippingRate) => s.id == b.id.value, (s: ShippingRate) => Edited(s, b, now))
  }

  /** POST `shippingRates/edit`. */
  method Edit(st: Store, token: bool, b: EditBody, now: nat, faults: Faults) returns (r: Response<()>)
    modifies st`shippingRates
    ensures EditRejection(token, b, old(st.shippingRates), faults).Some? ==>
      r == EditRejection(token, b, old(st.shippingRates), faults).value && st.shippingRates == old(st.shippingRates)
    ensures EditRejection(token, b, old(st.shippingRates), faults).None? && Update in faults ==>
      r == Response(503, Error(faults[Update])) && st.shippingRates == old(st.shippingRates)
    ensures EditRejection(token, b, old(st.shippingRates), faults).None? && Update !in faults ==>
      r == Response(200, Success) && st.shippingRates == Rewritten(old(st.shippingRates), b, now)
  {
    var rejection := EditRejection(token, b, st.shippingRates, faults);
    if rejection.Some? {
      return rejection.value;
    }
    if Update in faults {
      return Response(503, Error(faults[Update]));
    }
    st.shippingRates := Rewritten(st.shippingRates, b, now);
    return Response(200, Success);
  }

  /** GET on either route is not supported. */
  function Get(token: bool): (r: Response<()>)
    ensures r.status == (if token then 405 else 401)
  {
    if !token then Unauthorized() else NotSupported("GET")
  }
}
