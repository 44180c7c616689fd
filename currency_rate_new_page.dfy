/** The "new currency rate" page: two selects over the fetched currencies,
  * each hiding the other's choice, and a rate, posted as JSON to
  * `api/currencyRates/save`. */
module CurrencyRateNewPage {
  import opened Wrappers
  import opened Records
  import opened Collections
  import CurrencyRateRoutes

  const Unselected := "Select Currency"

  /** The page state: every currency, the options of each select, the
    * selected short names and the rate. */
  datatype State = State(
    currencies: seq<Currency>, fromChoices: seq<Currency>, toChoices: seq<Currency>,
    from: string, to: string, rate: int, currenciesExist: bool)

  const Initial := State([], [], [], Unselected, Unselected, 0, true)

  /** The currencies fetch: a successful answer fills the three lists; an
    * empty one shows "Add a currency first". */
  function Loaded(s: State, data: seq<Currency>): (t: State)
    ensures t.currencies == data && t.fromChoices == data && t.toChoices == data
    ensures t.currenciesExist <==> s.currenciesExist && |data| != 0
    ensures t.from == s.from && t.to == s.to && t.rate == s.rate
  {
    s.(currencies := data, fromChoices := data, toChoices := data,
       currenciesExist := s.currenciesExist && |data| != 0)
  }

  function Without(currencies: seq<Currency>, shortName: string): seq<Currency>
  {
    Filter(currencies, (c: Currency) => c.shortName != shortName)
  }

  /** The "from" select: the "to" options become every currency but the
    * chosen one. */
  function FromChosen(s: State, value: string): (t: State)
    ensures t.from == value && t.to == s.to && t.fromChoices == s.fromChoices
    ensures forall k :: 0 <= k < |t.toChoices| ==> t.toChoices[k] in s.currencies && t.toChoices[k].shortName != value
    ensures forall k :: 0 <= k < |s.currencies| && s.currencies[k].shortName != value ==> s.currencies[k] in t.toChoices
  {
    s.(toChoices := Without(s.currencies, value), from := value)
  }

  /** The "to" select, symmetrically. */
  function ToChosen(s: State, value: string): (t: State)
    ensures t.to == value && t.from == s.from && t.toChoices == s.toChoices
    ensures forall k :: 0 <= k < |t.fromChoices| ==> t.fromChoices[k] in s.currencies && t.fromChoices[k].shortName != value
    ensures forall k :: 0 <= k < |s.currencies| && s.currencies[k].shortName != value ==> s.currencies[k] in t.fromChoices
  {
    s.(fromChoices := Without(s.currencies, value), to := value)
  }

  /** Neither select offers the other's choice, and the two choices differ
    * once both are made. */
  predicate Apart(s: State)
  {
    && (s.from != Unselected ==> forall k :: 0 <= k < |s.toChoices| ==> s.toChoices[k].shortName != s.from)
    && (s.to != Unselected ==> forall k :: 0 <= k < |s.fromChoices| ==> s.fromChoices[k].shortName != s.to)
    && (s.from != Unselected && s.to != Unselected ==> s.from != s.to)
  }

  /** A select's value is its placeholder or one of its options. */
  predicate OfferedFrom(s: State, value: string)
  {
    value == Unselected || exists k :: 0 <= k < |s.fromChoices| && s.fromChoices[k].shortName == value
  }

  predicate OfferedTo(s: State, value: string)
  {
    value == Unselected || exists k :: 0 <= k < |s.toChoices| && s.toChoices[k].shortName == value
  }

  /** The page starts apart, and every choice among the offered options
    * keeps it apart. */
  lemma LoadedIsApart(data: seq<Currency>)
    ensures Apart(Loaded(Initial, data))
  {
  }

  lemma ChoicesKeepApart(s: State, value: string)
    requires Apart(s)
    ensures OfferedFrom(s, value) ==> Apart(FromChosen(s, value))
    ensures OfferedTo(s, value) ==> Apart(ToChosen(s, value))
  {
  }

  /** The rate input: `valueAsNumber || 0`, so `NaN` becomes 0. */
  function RateChanged(s: State, parsed: Option<int>): (t: State)
    ensures t.rate == (if parsed.Some? then parsed.value else 0)
    ensures t.from == s.from && t.to == s.to
  {
    s.(rate := if parsed.Some? then parsed.value else 0)
  }

  /** What the submit does: a notice, or the JSON body posted. */
  datatype Submission = Refused(notice: string) | Posted(body: CurrencyRateRoutes.SaveBody)

  /** `handleSubmit`: both currencies must be chosen, "from" first. */
  function Submit(s: State): (r: Submission)
    ensures s.from == Unselected ==> r == Refused("Please select a from currency")
    ensures s.from != Unselected && s.to == Unselected ==> r == Refused("Please select a to currency")
    ensures r.Posted? <==> s.from != Unselected && s.to != Unselected
    ensures r.Posted? ==> r.body == CurrencyRateRoutes.SaveBody(Some(s.from), Some(s.to), Some(s.rate))
  {
    if s.from == Unselected then Refused("Please select a from currency")
    else if s.to == Unselected then Refused("Please select a to currency")
    else Posted(CurrencyRateRoutes.SaveBody(Some(s.from), Some(s.to), Some(s.rate)))
  }

  /** A body the page posts from an apart state passes the save route's
    * guards when the short names are not empty, and names two different
    * currencies. */
  lemma PostedBodyReachesRoute(s: State)
    requires Apart(s) && s.from != "" && s.to != ""
    ensures Submit(s).Posted? ==>
      CurrencyRateRoutes.SaveRejection(true, Submit(s).body).None?
      && Submit(s).body.from.value != Submit(s).body.to.value
  {
  }
}
