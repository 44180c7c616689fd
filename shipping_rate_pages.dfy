/** The "new shipping rate" and "edit shipping rate" pages: a name, a
  * minimum and an optional maximum number of delivery days and a rate,
  * posted as JSON to `api/shippingRates/save` or `api/shippingRates/edit`. */
module ShippingRatePages {
  import opened Wrappers
  import opened Records
  import opened Http
  import opened FormInputs
  import ShippingRateRoutes

  /** The form state both pages keep. */
  datatype Form = Form(name: string, minimum: int, maximum: int, rate: int, includeMax: bool)

  /** The state both pages start from. */
  const Initial := Form("", 1, 1, 0, false)

  /** The minimum input's change handler: when the maximum is not above the
    * old minimum it follows the new one; the minimum takes the value. */
  function MinimumChanged(f: Form, value: int): (g: Form)
    ensures g.minimum == value
    ensures g.maximum == (if f.maximum <= f.minimum then value else f.maximum)
    ensures g.name == f.name && g.rate == f.rate && g.includeMax == f.includeMax
  {
    f.(maximum := if f.maximum <= f.minimum then value else f.maximum, minimum := value)
  }

  /** A range stays a range when the new minimum does not pass the
    * maximum, or when the maximum was following the minimum. */
  lemma MinimumKeepsRange(f: Form, value: int)
    requires f.minimum <= f.maximum
    requires value <= f.maximum || f.maximum == f.minimum
    ensures MinimumChanged(f, value).minimum <= MinimumChanged(f, value).maximum
  {
  }

  /** Raising the minimum past a maximum that was above it leaves the
    * maximum below the minimum; the save route stores the pair as it is. */
  lemma MinimumCanPassMaximum()
    ensures var f := MinimumChanged(Initial.(maximum := 3, includeMax := true), 5);
      && f.maximum < f.minimum
      && var body := SaveBody(f.(name := "Standard"));
         ShippingRateRoutes.SaveRejection(true, body).None?
         && ShippingRateRoutes.NewShippingRate(0, body, 0).maximumDeliveryDays == Some(3)
         && ShippingRateRoutes.NewShippingRate(0, body, 0).minimumDeliveryDays == 5
  {
  }

  /** The new page's rate input (`parseFloat`; whole numbers only here):
    * `[1, 100]` is kept, `NaN` becomes 0, anything else restores the rate. */
  function NewRateInput(previous: int, parsed: Option<int>): (v: int)
    ensures parsed.Some? && 1 <= parsed.value <= 100 ==> v == parsed.value
    ensures parsed.None? ==> v == 0
    ensures parsed.Some? && !(1 <= parsed.value <= 100) ==> v == previous
    ensures 0 <= previous <= 100 ==> 0 <= v <= 100
  {
    ClampInput(previous, parsed, 1, 100, 0)
  }

  /** On the new page a cleared rate input gives a rate of 0, below the
    * input's own range [1, 100], and the save route accepts it. */
  lemma ClearedRateIsZero(f: Form)
    requires f.name != "" && f.minimum != 0
    ensures var g := f.(rate := NewRateInput(f.rate, None));
      g.rate == 0 && ShippingRateRoutes.SaveRejection(true, SaveBody(g)).None?
  {
  }

  /** The edit page's rate input (`parseInt`): `[0, 100]` is kept, `NaN`
    * becomes 1, anything else restores the rate. */
  function EditRateInput(previous: int, parsed: Option<int>): (v: int)
    ensures parsed.Some? && 0 <= parsed.value <= 100 ==> v == parsed.value
    ensures parsed.None? ==> v == 1
    ensures parsed.Some? && !(0 <= parsed.value <= 100) ==> v == previous
    ensures 0 <= previous <= 100 ==> 0 <= v <= 100
  {
    ClampInput(previous, parsed, 0, 100, 1)
  }

  /** The new page's JSON body: the maximum only when the box is checked. */
  function SaveBody(f: Form): ShippingRateRoutes.SaveBody
  {
    ShippingRateRoutes.SaveBody(Some(f.name), Some(f.minimum), if f.includeMax then Some(f.maximum) else None, Some(f.rate))
  }

  /** The save route refuses the page's body exactly when the name is empty
    * or the minimum is 0; it stores a maximum exactly when the box is
    * checked and the maximum is not 0. */
  lemma SaveBodyReachesRoute(f: Form)
    ensures ShippingRateRoutes.SaveRejection(true, SaveBody(f)).None? <==> f.name != "" && f.minimum != 0
    ensures f.name != "" && f.minimum != 0 ==>
      var s := ShippingRateRoutes.NewShippingRate(0, SaveBody(f), 0);
      && s.name == f.name && s.minimumDeliveryDays == f.minimum && s.rate == f.rate
      && (s.maximumDeliveryDays.Some? <==> f.includeMax && f.maximum != 0)
      && (s.maximumDeliveryDays.Some? ==> s.maximumDeliveryDays.value == f.maximum)
  {
  }

  /** The edit page's fetch handler: name, minimum and rate are taken; the
    * maximum, and the checked box, only when the stored maximum is truthy. */
  function Loaded(f: Form, s: ShippingRate): (g: Form)
    ensures g.name == s.name && g.minimum == s.minimumDeliveryDays && g.rate == s.rate
    ensures TruthyNumber(s.maximumDeliveryDays) ==> g.maximum == s.maximumDeliveryDays.value && g.includeMax
    ensures !TruthyNumber(s.maximumDeliveryDays) ==> g.maximum == f.maximum && g.includeMax == f.includeMax
  {
    var g := f.(name := s.name, minimum := s.minimumDeliveryDays, rate := s.rate);
    if TruthyNumber(s.maximumDeliveryDays) then g.(maximum := s.maximumDeliveryDays.value, includeMax := true) else g
  }

  /** The edit page's JSON body; the `id` search parameter is its `_id`. */
  function EditBody(id: Id, f: Form): ShippingRateRoutes.EditBody
  {
    ShippingRateRoutes.EditBody(Some(id), Some(f.name), Some(f.minimum), if f.includeMax then Some(f.maximum) else None, Some(f.rate))
  }

  /** Loading a stored rate into the initial form and saving it unchanged
    * rewrites the same document, with only `updated` moved on, when its
    * maximum is absent or positive (as the edit route stores it). */
  lemma UnchangedEditKeepsDocument(id: Id, s: ShippingRate, now: nat)
    requires s.name != "" && s.minimumDeliveryDays != 0
    requires s.maximumDeliveryDays.None? || s.maximumDeliveryDays.value > 0
    ensures ShippingRateRoutes.EditPasses(EditBody(id, Loaded(Initial, s)))
    ensures ShippingRateRoutes.Edited(s, EditBody(id, Loaded(Initial, s)), now) == s.(updated := now)
  {
  }
}
