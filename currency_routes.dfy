/** `api/currencies/save` and `api/currencies/edit`. */
module CurrencyRoutes {
  import opened Wrappers
  import opened Records
  import opened Http
  import opened Collections
  import opened Database

  datatype SaveBody = SaveBody(name: Option<string>, shortName: Option<string>, symbol: Option<string>)

  function SaveChecks(b: SaveBody): seq<Check>
  {
    [ Check(Truthy(b.name), "name key is missing"),
      Check(Truthy(b.shortName), "shortName key is missing"),
      Check(Truthy(b.symbol), "symbol key is missing") ]
  }

  predicate SavePasses(b: SaveBody)
  {
    Truthy(b.name) && Truthy(b.shortName) && Truthy(b.symbol)
  }

  function SaveRejection(token: bool, b: SaveBody): (r: Option<Response<()>>)
    ensures !token ==> r == Some(Unauthorized())
    ensures token && !Truthy(b.name) ==> r == Some(Response(400, Error("name key is missing")))
    ensures token && Truthy(b.name) && !Truthy(b.shortName) ==> r == Some(Response(400, Error("shortName key is missing")))
    ensures token && Truthy(b.name) && Truthy(b.shortName) && !Truthy(b.symbol) ==>
      r == Some(Response(400, Error("symbol key is missing")))
    ensures r.None? <==> token && SavePasses(b)
  {
    if !token then Some(Unauthorized())
    else
      assert SaveChecks(b)[0].message == "name key is missing";
      assert SaveChecks(b)[1].message == "shortName key is missing";
      assert SaveChecks(b)[2].message == "symbol key is missing";
      Guard(SaveChecks(b))
  }

  /** Index of the first currency called `name`; a currency with the same
    * short name and another name is no duplicate. */
  function FirstNamed(currencies: seq<Currency>, name: string): (r: Option<nat>)
    ensures r.Some? ==> r.value < |currencies| && currencies[r.value].name == name
    ensures r.None? <==> forall j :: 0 <= j < |currencies| ==> currencies[j].name != name
  {
    FirstIndex(currencies, (c: Currency) => c.name == name)
  }

  /** The created document carries exactly the three sent fields. */
  function NewCurrency(id: Id, b: SaveBody, loadTime: nat): (c: Currency)
    requires SavePasses(b)
    ensures c.id == id && c.name == b.name.value && c.shortName == b.shortName.value && c.symbol == b.symbol.value
    ensures c.created == loadTime && c.updated == loadTime
  {
    Currency(id, b.name.value, b.shortName.value, b.symbol.value, loadTime, loadTime)
  }

  /** POST `currencies/save`. */
  method Save(st: Store, token: bool, b: SaveBody, faults: Faults) returns (r: Response<()>)
    modifies st
    ensures st.objects == old(st.objects)
    ensures SaveRejection(token, b).Some? ==> r == SaveRejection(token, b).value && st.Docs() == old(st.Docs())
    ensures SaveRejection(token, b).None? ==>
      if Find in faults then
        r == Caught(faults[Find], "Currency already exists") && st.Docs() == old(st.Docs())
      else if FirstNamed(old(st.currencies), b.name.value).Some? then
        r == Response(409, Error("Currency already exists")) && st.Docs() == old(st.Docs())
      else if Create in faults then
        r == Caught(faults[Create], "Currency already exists") && st.Docs() == old(st.Docs())
      else
        && r == Response(201, Success)
        && st.Docs() == old(st.Docs()).(currencies := old(st.currencies) + [NewCurrency(old(st.nextId), b, st.loadTime)])
  {
    var rejection := SaveRejection(token, b);
    if rejection.Some? {
      return rejection.value;
    }
    if Find in faults {
      return Caught(faults[Find], "Currency already exists");
    }
    if FirstNamed(st.currencies, b.name.value).Some? {
      return Response(409, Error("Currency already exists"));
    }
    if Create in faults {
      return Caught(faults[Create], "Currency already exists");
    }
    var id := st.FreshId();
    st.currencies := st.currencies + [NewCurrency(id, b, st.loadTime)];
    return Response(201, Success);
  }

  datatype EditBody = EditBody(id: Option<Id>, name: Option<string>, shortName: Option<string>, symbol: Option<string>)

  function EditChecks(b: EditBody): seq<Check>
  {
    [ Check(b.id.Some?, "_id key is missing"),
      Check(Truthy(b.name), "name key is missing"),
      Check(Truthy(b.shortName), "shortName key is missing"),
      Check(Truthy(b.symbol), "symbol key is missing") ]
  }

  predicate EditPasses(b: EditBody)
  {
    b.id.Some? && Truthy(b.name) && Truthy(b.shortName) && Truthy(b.symbol)
  }

  function FirstWithId(currencies: seq<Currency>, id: Id): (r: Option<nat>)
    ensures r.Some? ==> r.value < |currencies| && currencies[r.value].id == id
    ensures r.None? <==> forall j :: 0 <= j < |currencies| ==> currencies[j].id != id
  {
    FirstIndex(currencies, (c: Currency) => c.id == id)
  }

  /** The answer before the `try`, if any; the message names the sent name. */
  function EditRejection(token: bool, b: EditBody, currencies: seq<Currency>, faults: Faults): (r: Option<Response<()>>)
    ensures !token ==> r == Some(Unauthorized())
    ensures token && b.id.None? ==> r == Some(Response(400, Error("_id key is missing")))
    ensures token && EditPasses(b) && Find in faults ==> r == Some(Response(500, Unhandled(faults[Find])))
    ensures token && EditPasses(b) && Find !in faults && FirstWithId(currencies, b.id.value).None? ==>
      r == Some(Response(409, Error("Currency " + b.name.value + " no longer exists")))
    ensures r.None? <==> token && EditPasses(b) && Find !in faults && FirstWithId(currencies, b.id.value).Some?
    ensures token && !EditPasses(b) ==> r.Some? && r.value.status == 400
  {
    if !token then Some(Unauthorized())
    else if Guard<()>(EditChecks(b)).Some? then
      assert EditChecks(b)[0].message == "_id key is missing";
      Guard(EditChecks(b))
    else
      assert EditPasses(b) by {
        assert EditChecks(b)[0].passes && EditChecks(b)[1].passes && EditChecks(b)[2].passes && EditChecks(b)[3].passes;
      }
      if Find in faults then Some(Response(500, Unhandled(faults[Find])))
      else if FirstWithId(currencies, b.id.value).None? then
        Some(Response(409, Error("Currency " + b.name.value + " no longer exists")))
      else None
  }

  /** Only the short name, the symbol and `updated` are written. */
  function Edited(c: Currency, b: EditBody, now: nat): (e: Currency)
    requires EditPasses(b)
    ensures e.id == c.id && e.name == c.name && e.created == c.created
    ensures e.shortName == b.shortName.value && e.symbol == b.symbol.value && e.updated == now
  {
    c.(shortName := b.shortName.value, symbol := b.symbol.value, updated := now)
  }

  function Rewritten(currencies: seq<Currency>, b: EditBody, now: nat): (r: seq<Currency>)
    requires EditPasses(b)
    ensures |r| == |currencies|
    ensures forall i :: 0 <= i < |r| && FirstWithId(currencies, b.id.value) != Some(i) ==> r[i] == currencies[i]
    ensures forall i :: FirstWithId(currencies, b.id.value) == Some(i) ==> r[i] == Edited(currencies[i], b, now)
  {
    UpdateFirst(currencies, (c: Currency) => c.id == b.id.value, (c: Currency) => Edited(c, b, now))
  }

  /** POST `currencies/edit`. */
  method Edit(st: Store, token: bool, b: EditBody, now: nat, faults: Faults) returns (r: Response<()>)
    modifies st`currencies
    ensures EditRejection(token, b, old(st.currencies), faults).Some? ==>
      r == EditRejection(token, b, old(st.currencies), faults).value && st.currencies == old(st.currencies)
    ensures EditRejection(token, b, old(st.currencies), faults).None? && Update in faults ==>
      r == Response(503, Error(faults[Update])) && st.currencies == old(st.currencies)
    ensures EditRejection(token, b, old(st.currencies), faults).None? && Update !in faults ==>
      r == Response(200, Success) && st.currencies == Rewritten(old(st.currencies), b, now)
  {
    var rejection := EditRejection(token, b, st.currencies, faults);
    if rejection.Some? {
      return rejection.value;
    }
    if Update in faults {
      return Response(503, Error(faults[Update]));
    }
    st.currencies := Rewritten(st.currencies, b, now);
    return Response(200, Success);
  }

  /** GET on either route is not supported. */
  function Get(token: bool): (r: Response<()>)
    ensures r.status == (if token then 405 else 401)
  {
    if !token then Unauthorized() else NotSupported("GET")
  }
}
