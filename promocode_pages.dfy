/** The "new promocode" and "edit promocode" pages: a code, an expiry
  * date in the `datetime-local` format and a discount, posted as JSON to
  * `api/promocodes/save` or `api/promocodes/edit`. */
module PromocodePages {
  import opened Wrappers
  import opened Text
  import opened Records
  import opened FormInputs
  import PromocodeRoutes

  /** The local time read when the page renders; `monthIndex` counts from
    * 0 as `getMonth()` does. */
  datatype Clock = Clock(year: nat, monthIndex: nat, day: nat, hours: nat, minutes: nat)

  predicate Plausible(c: Clock)
  {
    1000 <= c.year < 10000 && c.monthIndex < 12 && 1 <= c.day <= 31 && c.hours < 24 && c.minutes < 60
  }

  /** `${year}-${month}-${day}T${hours}:${minutes}`, each part after the
    * year padded to two digits, the month counted from 1. */
  function DateTime(c: Clock): (s: string)
    ensures s != ""
    ensures Plausible(c) ==> |s| == 16 && s[4] == '-' && s[7] == '-' && s[10] == 'T' && s[13] == ':'
  {
    NatToString(c.year) + "-" + Pad2(c.monthIndex + 1) + "-" + Pad2(c.day) + "T" + Pad2(c.hours) + ":" + Pad2(c.minutes)
  }

  /** Each field reads back from its place in the string. */
  lemma DateTimeReadsBack(c: Clock)
    requires Plausible(c)
    ensures var s := DateTime(c);
      && ParseDigits(s[0..4]) == c.year && ParseDigits(s[5..7]) == c.monthIndex + 1
      && ParseDigits(s[8..10]) == c.day && ParseDigits(s[11..13]) == c.hours
      && ParseDigits(s[14..16]) == c.minutes
  {
    var s := DateTime(c);
    assert s[0..4] == NatToString(c.year);
    assert s[5..7] == Pad2(c.monthIndex + 1);
    assert s[8..10] == Pad2(c.day);
    assert s[11..13] == Pad2(c.hours);
    assert s[14..16] == Pad2(c.minutes);
    ParseNatToString(c.year);
    ParsePad2(c.monthIndex + 1);
    ParsePad2(c.day);
    ParsePad2(c.hours);
    ParsePad2(c.minutes);
  }

  /** The form state both pages keep. */
  datatype Form = Form(code: string, validUntil: string, discount: int)

  /** The state both pages start from: no code, the time of rendering, 1%. */
  function Initial(c: Clock): Form
  {
    Form("", DateTime(c), 1)
  }

  /** The discount input of both pages (`parseInt`): `[1, 100]` is kept,
    * `NaN` becomes 1, anything else restores the discount. */
  function DiscountInput(previous: int, parsed: Option<int>): (v: int)
    ensures parsed.Some? && 1 <= parsed.value <= 100 ==> v == parsed.value
    ensures parsed.None? ==> v == 1
    ensures parsed.Some? && !(1 <= parsed.value <= 100) ==> v == previous
    ensures 1 <= previous <= 100 ==> 1 <= v <= 100
  {
    ClampStaysInRange(if 1 <= previous <= 100 then previous else 1, parsed, 1, 100, 1);
    ClampInput(previous, parsed, 1, 100, 1)
  }

  /** The new page's JSON body. */
  function SaveBody(f: Form): PromocodeRoutes.SaveBody
  {
    PromocodeRoutes.SaveBody(Some(f.code), Some(f.validUntil), Some(f.discount))
  }

  /** Starting from the initial form, whatever the discount input is given,
    * the save route refuses the body only for an empty code: the date is
    * never empty and the discount never leaves `[1, 100]`. */
  lemma SaveBodyReachesRoute(c: Clock, code: string, inputs: seq<Option<int>>)
    ensures var f := Initial(c).(code := code, discount := Typed(1, inputs));
      PromocodeRoutes.SaveRejection(true, SaveBody(f)).None? <==> code != ""
  {
    TypedStaysInRange(1, inputs);
  }

  /** The discount after a sequence of inputs. */
  function Typed(start: int, inputs: seq<Option<int>>): int
    decreases |inputs|
  {
    if |inputs| == 0 then start else Typed(DiscountInput(start, inputs[0]), inputs[1..])
  }

  lemma {:induction false} TypedStaysInRange(start: int, inputs: seq<Option<int>>)
    requires 1 <= start <= 100
    ensures 1 <= Typed(start, inputs) <= 100
    decreases |inputs|
  {
    if |inputs| > 0 {
      TypedStaysInRange(DiscountInput(start, inputs[0]), inputs[1..]);
    }
  }

  /** The edit page's fetch handler replaces all three fields. */
  function Loaded(f: Form, p: Promocode): Form
  {
    f.(code := p.code, validUntil := p.validUntil, discount := p.discountPercent)
  }

  /** The edit page's JSON body `{_id, code, validUntil, discountPercent}`,
    * as the edit route reads it: that route has no use for `code`. */
  function EditBody(id: Id, f: Form): PromocodeRoutes.EditBody
  {
    PromocodeRoutes.EditBody(Some(id), Some(f.validUntil), Some(f.discount))
  }

  /** Loading a promocode and saving it unchanged rewrites the same
    * document, only `updated` moved on; a code typed into the page never
    * reaches the store. */
  lemma EditRoundTrip(id: Id, p: Promocode, c: Clock, code: string, now: nat)
    requires p.validUntil != "" && p.discountPercent != 0
    ensures var f := Loaded(Initial(c), p);
      && PromocodeRoutes.EditPasses(EditBody(id, f))
      && PromocodeRoutes.Edited(p, EditBody(id, f), now) == p.(updated := now)
      && PromocodeRoutes.Edited(p, EditBody(id, f.(code := code)), now).code == p.code
  {
  }
}
