/** What the "new product" and "edit product" pages share: one chosen
  * value per property name, the check that every property has a value,
  * and the discount input. */
module ProductForms {
  import opened Wrappers
  import opened Records
  import opened FormInputs

  /** The distinct property names of a list. */
  function Names(props: seq<Property>): set<string>
  {
    set i | 0 <= i < |props| :: props[i].name
  }

  lemma {:induction false} NamesSplit(props: seq<Property>)
    requires |props| > 0
    ensures Names(props) == {props[0].name} + Names(props[1..])
  {
    forall n | n in Names(props) ensures n in {props[0].name} + Names(props[1..]) {
      var i :| 0 <= i < |props| && props[i].name == n;
      if i > 0 {
        assert props[1..][i - 1].name == n;
      }
    }
    forall n | n in Names(props[1..]) ensures n in Names(props) {
      var i :| 0 <= i < |props[1..]| && props[1..][i].name == n;
      assert props[i + 1].name == n;
    }
  }

  /** There are never more names than properties. */
  lemma {:induction false} NamesBound(props: seq<Property>)
    ensures |Names(props)| <= |props|
  {
    if |props| == 0 {
      assert Names(props) == {};
    } else {
      NamesSplit(props);
      NamesBound(props[1..]);
    }
  }

  /** Two properties sharing a name leave fewer names than properties. */
  lemma {:induction false} RepeatedNameShrinks(props: seq<Property>, i: nat, j: nat)
    requires i < j < |props| && props[i].name == props[j].name
    ensures |Names(props)| < |props|
  {
    NamesSplit(props);
    if i == 0 {
      assert props[1..][j - 1].name == props[0].name;
      assert Names(props) == Names(props[1..]);
      NamesBound(props[1..]);
    } else {
      assert props[1..][i - 1].name == props[1..][j - 1].name;
      RepeatedNameShrinks(props[1..], i - 1, j - 1);
    }
  }

  /** The chosen values (`currentProperties`) are keyed by the names of the
    * properties on show. */
  predicate KeyedByNames(chosen: map<string, string>, allProps: seq<Property>)
  {
    chosen.Keys <= Names(allProps)
  }

  /** A property's select: `{...currentProperties, [name]: value}`. */
  function Choose(chosen: map<string, string>, allProps: seq<Property>, i: nat, value: string): (r: map<string, string>)
    requires i < |allProps|
    ensures r.Keys == chosen.Keys + {allProps[i].name} && r[allProps[i].name] == value
    ensures forall k :: k in chosen && k != allProps[i].name ==> r[k] == chosen[k]
    ensures KeyedByNames(chosen, allProps) ==> KeyedByNames(r, allProps)
  {
    chosen[allProps[i].name := value]
  }

  /** The submit check `Object.keys(currentProperties).length != allProps.length`. */
  predicate AllChosen(chosen: map<string, string>, allProps: seq<Property>)
  {
    |chosen.Keys| == |allProps|
  }

  /** While two properties on show share a name, the check can never pass:
    * the chosen values have at most one key per name. */
  lemma RepeatedNameBlocksSubmit(chosen: map<string, string>, allProps: seq<Property>, i: nat, j: nat)
    requires KeyedByNames(chosen, allProps)
    requires i < j < |allProps| && allProps[i].name == allProps[j].name
    ensures !AllChosen(chosen, allProps)
  {
    RepeatedNameShrinks(allProps, i, j);
    assert |chosen.Keys| <= |Names(allProps)| by {
      SubsetCardinality(chosen.Keys, Names(allProps));
    }
  }

  lemma SubsetCardinality(a: set<string>, b: set<string>)
    requires a <= b
    ensures |a| <= |b|
  {
    assert b == a + (b - a);
  }

  /** Choosing a value for every property on show, with distinct names,
    * passes the check. */
  lemma {:induction false} DistinctNamesCanPass(allProps: seq<Property>)
    requires forall i, j :: 0 <= i < j < |allProps| ==> allProps[i].name != allProps[j].name
    ensures |Names(allProps)| == |allProps|
  {
    if |allProps| > 0 {
      NamesSplit(allProps);
      DistinctNamesCanPass(allProps[1..]);
      assert forall k :: 0 <= k < |allProps[1..]| ==> allProps[1..][k].name != allProps[0].name;
    } else {
      assert Names(allProps) == {};
    }
  }

  /** The discount input of both pages: an integer in `[0, 100]` is kept,
    * `NaN` becomes 1, anything else restores the discount in state. */
  function DiscountInput(previous: int, parsed: Option<int>): (v: int)
    ensures 0 <= previous <= 100 ==> 0 <= v <= 100
    ensures parsed.Some? && 0 <= parsed.value <= 100 ==> v == parsed.value
    ensures parsed.None? ==> v == 1
    ensures parsed.Some? && !(0 <= parsed.value <= 100) ==> v == previous
  {
    ClampInput(previous, parsed, 0, 100, 1)
  }
}
