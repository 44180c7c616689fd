/** `api/currencyRates/save` and `api/currencyRates/edit`. */
module CurrencyRateRoutes {
  import opened Wrappers
  import opened Records
  import opened Http
  import opened Collections
  import opened Database

  datatype SaveBody = SaveBody(from: Option<string>, to: Option<string>, rate: Option<int>)

  /** `from` and `to` must be truthy; `rate` only present, so 0 and negative
    * rates pass, and nothing compares `from` with `to`. */
  function SaveChecks(b: SaveBody): seq<Check>
  {
    [ Check(Truthy(b.from), "from key is missing"),
      Check(Truthy(b.to), "to key is missing"),
      Check(b.rate.Some?, "rate key is missing") ]
  }

  predicate SavePasses(b: SaveBody)
  {
    Truthy(b.from) && Truthy(b.to) && b.rate.Some?
  }

  function SaveRejection(token: bool, b: SaveBody): (r: Option<Response<()>>)
    ensures !token ==> r == Some(Unauthorized())
    ensures token && !Truthy(b.from) ==> r == Some(Response(400, Error("from key is missing")))
    ensures token && Truthy(b.from) && !Truthy(b.to) ==> r == Some(Response(400, Error("to key is missing")))
    ensures token && Truthy(b.from) && Truthy(b.to) && b.rate.None? ==> r == Some(Response(400, Error("rate key is missing")))
    ensures r.None? <==> token && SavePasses(b)
  {
    if !token then Some(Unauthorized())
    else
      assert SaveChecks(b)[0].message == "from key is missing";
      assert SaveChecks(b)[1].message == "to key is missing";
      assert SaveChecks(b)[2].message == "rate key is missing";
      Guard(SaveChecks(b))
  }

  /** Index of the first rate for exactly this ordered pair. */
  function FirstPair(rates: seq<CurrencyRate>, from: string, to: string): (r: Option<nat>)
    ensures r.Some? ==> r.value < |rates| && rates[r.value].from == from && rates[r.value].to == to
    ensures r.None? <==> forall j :: 0 <= j < |rates| ==> !(rates[j].from == from && rates[j].to == to)
  {
    FirstIndex(rates, (c: CurrencyRate) => c.from == from && c.to == to)
  }

  /** Holding the pair one way is no obstacle to saving it the other way:
    * however many rates for (from, to) a store gains, its lookup for
    * (to, from) answers as before. */
  lemma ReversedPairIsNoDuplicate(rates: seq<CurrencyRate>, added: seq<CurrencyRate>, from: string, to: string)
    requires from != to
    requires forall k :: 0 <= k < |added| ==> added[k].from == from && added[k].to == to
    ensures FirstPair(rates + added, to, from).None? <==> FirstPair(rates, to, from).None?
  {
    var all := rates + added;
    if FirstPair(rates, to, from).None? {
      forall j | 0 <= j < |all| ensures !(all[j].from == to && all[j].to == from) {
        if j < |rates| { assert all[j] == rates[j]; } else { assert all[j] == added[j - |rates|]; }
      }
    } else {
      var i := FirstPair(rates, to, from).value;
      assert all[i] == rates[i];
    }
  }

  function NewCurrencyRate(id: Id, b: SaveBody, loadTime: nat): (c: CurrencyRate)
    requires SavePasses(b)
    ensures c.id == id && c.from == b.from.value && c.to == b.to.value && c.rate == b.rate.value
    ensures c.created == loadTime && c.updated == loadTime
  {
    CurrencyRate(id, b.from.value, b.to.value, b.rate.value, loadTime, loadTime)
  }

  /** POST `currencyRates/save`. */
  method Save(st: Store, token: bool, b: SaveBody, faults: Faults) returns (r: Response<()>)
    modifies st
    ensures st.objects == old(st.objects)
    ensures SaveRejection(token, b).Some? ==> r == SaveRejection(token, b).value && st.Docs() == old(st.Docs())
    ensures SaveRejection(token, b).None? ==>
      if Find in faults then
        r == Caught(faults[Find], "CurrencyRate already exists") && st.Docs() == old(st.Docs())
      else if FirstPair(old(st.currencyRates), b.from.value, b.to.value).Some? then
        r == Response(409, Error("CurrencyRate already exists")) && st.Docs() == old(st.Docs())
      else if Create in faults then
        r == Caught(faults[Create], "CurrencyRate already exists") && st.Docs() == old(st.Docs())
      else
        && r == Response(201, Success)
        && st.Docs() == old(st.Docs()).(currencyRates := old(st.currencyRates) + [NewCurrencyRate(old(st.nextId), b, st.loadTime)])
  {
    var rejection := SaveRejection(token, b);
    if rejection.Some? {
      return rejection.value;
    }
    if Find in faults {
      return Caught(faults[Find], "CurrencyRate already exists");
    }
    if FirstPair(st.currencyRates, b.from.value, b.to.value).Some? {
      return Response(409, Error("CurrencyRate already exists"));
    }
    if Create in faults {
      return Caught(faults[Create], "CurrencyRate already exists");
    }
    var id := st.FreshId();
    st.currencyRates := st.currencyRates + [NewCurrencyRate(id, b, st.loadTime)];
    return Response(201, Success);
  }

  datatype EditBody = EditBody(id: Option<Id>, from: Option<string>, to: Option<string>, rate: Option<int>)

  /** Unlike the save, the edit wants a truthy rate, so 0 is refused. */
  function EditChecks(b: EditBody): seq<Check>
  {
    [ Check(b.id.Some?, "_id key is missing"),
      Check(Truthy(b.from), "from key is missing"),
      Check(Truthy(b.to), "to key is missing"),
      Check(TruthyNumber(b.rate), "rate key is missing") ]
  }

  predicate EditPasses(b: EditBody)
  {
    b.id.Some? && Truthy(b.from) && Truthy(b.to) && TruthyNumber(b.rate)
  }

  function FirstWithId(rates: seq<CurrencyRate>, id: Id): (r: Option<nat>)
    ensures r.Some? ==> r.value < |rates| && rates[r.value].id == id
    ensures r.None? <==> forall j :: 0 <= j < |rates| ==> rates[j].id != id
  {
    FirstIndex(rates, (c: CurrencyRate) => c.id == id)
  }

  function EditRejection(token: bool, b: EditBody, rates: seq<CurrencyRate>, faults: Faults): (r: Option<Response<()>>)
    ensures !token ==> r == Some(Unauthorized())
    ensures token && b.id.None? ==> r == Some(Response(400, Error("_id key is missing")))
    ensures token && EditPasses(b) && Find in faults ==> r == Some(Response(500, Unhandled(faults[Find])))
    ensures token && EditPasses(b) && Find !in faults && FirstWithId(rates, b.id.value).None? ==>
      r == Some(Response(409, Error("CurrencyRate from " + b.from.value + " to " + b.to.value + " no longer exists")))
    ensures r.None? <==> token && EditPasses(b) && Find !in faults && FirstWithId(rates, b.id.value).Some?
    ensures token && !EditPasses(b) ==> r.Some? && r.value.status == 400
  {
    if !token then Some(Unauthorized())
    else if Guard<()>(EditChecks(b)).Some? then
      assert EditChecks(b)[0].message == "_id key is missing";
      Guard(EditChecks(b))
    else
      assert EditPasses(b) by {
        assert EditChecks(b)[0].passes && EditChecks(b)[1].passes && EditChecks(b)[2].passes && EditChecks(b)[3].passes;
      }
      if Find in faults then Some(Response(500, Unhandled(faults[Find])))
      else if FirstWithId(rates, b.id.value).None? then
        Some(Response(409, Error("CurrencyRate from " + b.from.value + " to " + b.to.value + " no longer exists")))
      else None
  }

  /** Only the rate and `updated` change; the pair stays whatever is sent. */
  function Edited(c: CurrencyRate, b: EditBody, now: nat): (e: CurrencyRate)
    requires EditPasses(b)
    ensures e.id == c.id && e.from == c.from && e.to == c.to && e.created == c.created
    ensures e.rate == b.rate.value && e.updated == now
  {
    c.(rate := b.rate.value, updated := now)
  }

  function Rewritten(rates: seq<CurrencyRate>, b: EditBody, now: nat): (r: seq<CurrencyRate>)
    requires EditPasses(b)
    ensures |r| == |rates|
    ensures forall i :: 0 <= i < |r| && FirstWithId(rates, b.id.value) != Some(i) ==> r[i] == rates[i]
    ensures forall i :: FirstWithId(rates, b.id.value) == Some(i) ==> r[i] == Edited(rates[i], b, now)
  {
    UpdateFirst(rates, (c: CurrencyRate) => c.id == b.id.value, (c: CurrencyRate) => Edited(c, b, now))
  }

  /** POST `currencyRates/edit`. */
  method Edit(st: Store, token: bool, b: EditBody, now: nat, faults: Faults) returns (r: Response<()>)
    modifies st`currencyRates
    ensures EditRejection(token, b, old(st.currencyRates), faults).Some? ==>
      r == EditRejection(token, b, old(st.currencyRates), faults).value && st.currencyRates == old(st.currencyRates)
    ensures EditRejection(token, b, old(st.currencyRates), faults).None? && Update in faults ==>
      r == Response(503, Error(faults[Update])) && st.currencyRates == old(st.currencyRates)
    ensures EditRejection(token, b, old(st.currencyRates), faults).None? && Update !in faults ==>
      r == Response(200, Success) && st.currencyRates == Rewritten(old(st.currencyRates), b, now)
  {
    var rejection := EditRejection(token, b, st.currencyRates, faults);
    if rejection.Some? {
      return rejection.value;
    }
    if Update in faults {
      return Response(503, Error(faults[Update]));
    }
    st.currencyRates := Rewritten(st.currencyRates, b, now);
    return Response(200, Success);
  }

  /** A rate of 0 that the save accepts is refused by the edit. */
  lemma ZeroRateSavedButNotEdited(token: bool, id: Id, from: string, to: string, rates: seq<CurrencyRate>, faults: Faults)
    requires token && from != "" && to != ""
    ensures SaveRejection(token, SaveBody(Some(from), Some(to), Some(0))).None?
    ensures EditRejection(token, EditBody(Some(id), Some(from), Some(to), Some(0)), rates, faults)
         == Some(Response(400, Error("rate key is missing")))
  {
    var b := EditBody(Some(id), Some(from), Some(to), Some(0));
    assert EditChecks(b)[3].message == "rate key is missing";
    assert FirstFailure(EditChecks(b)) == Some("rate key is missing") by {
      assert EditChecks(b) == [EditChecks(b)[0], EditChecks(b)[1], EditChecks(b)[2]] + [EditChecks(b)[3]];
    }
  }

  /** GET on either route is not supported. */
  function Get(token: bool): (r: Response<()>)
    ensures r.status == (if token then 405 else 401)
  {
    if !token then Unauthorized() else NotSupported("GET")
  }
}
