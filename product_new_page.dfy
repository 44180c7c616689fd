/** The "new product" page: a category select whose properties must each
  * get a value, up to three images per batch, and a submit that posts to
  * `api/products/save`. */
module ProductNewPage {
  import opened Wrappers
  import opened Records
  import opened Http
  import opened Collections
  import opened FormInputs
  import opened ProductForms
  import ProductsSaveRoute

  const NoCategory := "Select Category"

  /** The page state. `chosen` is `currentProperties`; `allProps` is the
    * list of properties that need a value. */
  datatype State = State(
    name: string, brand: string, description: string, contents: string,
    categories: seq<Category>, categoryName: string, chosen: map<string, string>,
    price: int, currency: string, discount: int, stock: int,
    pending: seq<Upload>, allProps: seq<Property>, notice: string)

  /** The currencies fetch: the first currency's short name becomes the
    * default; an empty or failed fetch leaves it. */
  function CurrenciesLoaded(s: State, data: Option<seq<Currency>>): (t: State)
    ensures data.Some? && |data.value| > 0 ==> t == s.(currency := data.value[0].shortName)
    ensures data.None? || |data.value| == 0 ==> t == s
  {
    if data.Some? && |data.value| > 0 then s.(currency := data.value[0].shortName) else s
  }

  /** What `allProps` ends as when `selected` is chosen while `before` is
    * on show: the category's own list, or, when it has a parent with an
    * `_id`, `before` followed by its own list (every step of the loop
    * writes the same value, built from the state at the start of the
    * handler). The parent's properties are never added. */
  function ChosenProps(before: seq<Property>, selected: Category): seq<Property>
  {
    if selected.parent.Snapshot? then before + selected.properties else selected.properties
  }

  /** The category select's change handler. The option values are the
    * fetched categories' names. */
  method ChooseCategory(s: State, choice: string) returns (t: State)
    requires exists j :: 0 <= j < |s.categories| && s.categories[j].name == choice
    ensures var i := FirstIndex(s.categories, (c: Category) => c.name == choice).value;
      t == s.(chosen := map[], categoryName := choice,
              allProps := ChosenProps(s.allProps, s.categories[i]))
  {
    var i := FirstIndex(s.categories, (c: Category) => c.name == choice).value;
    var selected := s.categories[i];
    var curr := selected;
    var allProps := selected.properties;
    ghost var moved := false;
    while curr.parent.Snapshot?
      invariant allProps == (if moved then s.allProps + selected.properties else selected.properties)
      invariant moved ==> selected.parent.Snapshot?
      invariant !moved ==> curr == selected
      decreases curr
    {
      allProps := s.allProps + s.categories[i].properties;
      curr := curr.parent.doc;
      moved := true;
    }
    t := s.(chosen := map[], categoryName := selected.name, allProps := allProps);
  }

  /** Choosing a category with a parent twice in a row lists its own
    * properties twice; then no set of chosen values passes the submit
    * check, until a category without a parent is chosen. */
  lemma ChildChosenTwiceBlocksSubmit(before: seq<Property>, selected: Category, chosen: map<string, string>)
    requires selected.parent.Snapshot? && |selected.properties| > 0
    requires KeyedByNames(chosen, ChosenProps(ChosenProps(before, selected), selected))
    ensures ChosenProps(ChosenProps(before, selected), selected) == before + selected.properties + selected.properties
    ensures !AllChosen(chosen, ChosenProps(ChosenProps(before, selected), selected))
  {
    var all := before + selected.properties + selected.properties;
    var n := |before|;
    assert all[n].name == all[n + |selected.properties|].name;
    RepeatedNameBlocksSubmit(chosen, all, n, n + |selected.properties|);
  }

  /** Choosing a category without a parent shows exactly its properties. */
  lemma RootShowsOwnProperties(before: seq<Property>, selected: Category)
    requires !selected.parent.Snapshot?
    ensures ChosenProps(before, selected) == selected.properties
  {
  }

  /** `uploadImage`: a batch of more than three files is refused; the
    * files already pending are not counted. */
  function UploadImage(s: State, files: Option<seq<Upload>>, validation: Validation): (t: State)
    ensures t.allProps == s.allProps && t.chosen == s.chosen && t.categoryName == s.categoryName
    ensures t.pending != s.pending <==>
      files.Some? && 0 < |files.value| <= 3 && validation.Files? && |validation.files| > 0
    ensures t.pending != s.pending ==> t.pending == s.pending + validation.files
    ensures files.Some? && |files.value| > 3 ==> t.notice == "Only a max of 3 images is allowed"
  {
    if files.None? then s
    else if |files.value| > 3 then s.(notice := "Only a max of 3 images is allowed")
    else if |files.value| > 0 && validation.Files? then s.(pending := s.pending + validation.files, notice := "")
    else s.(notice := "")
  }

  /** Two accepted batches of three leave six images pending; the submit
    * then refuses with 'Only a max of 3 images is allowed'. */
  lemma BatchesAddUp(s: State, files: seq<Upload>, accepted: seq<Upload>)
    requires |files| == 3 && |accepted| == 3
    ensures |UploadImage(UploadImage(s, Some(files), Files(accepted)), Some(files), Files(accepted)).pending| == |s.pending| + 6
  {
  }

  /** The trash button on pending image `i`. */
  function RemovePending(s: State, i: nat): (t: State)
    requires i < |s.pending|
    ensures |t.pending| == |s.pending| - 1 && multiset(t.pending) + multiset{s.pending[i]} == multiset(s.pending)
    ensures t.allProps == s.allProps && t.chosen == s.chosen
  {
    s.(pending := RemoveAt(s.pending, i))
  }

  /** The form `api/products/save` receives: the named fields, then the
    * image fields and the `currency` text, which that route never
    * removes or reads. */
  function SaveForm(s: State): ProductsSaveRoute.Form
  {
    ProductsSaveRoute.Form(Some(s.name), Some(s.brand), Some(s.description), Some(s.contents),
      Some(s.price), Some(s.categoryName), Some(Json(s.chosen)), Some(s.discount), Some(s.stock),
      FileEntries(s.pending) + [TextEntry(s.currency)])
  }

  /** `handleSubmit`: the four checks, in order. */
  method Submit(s: State) returns (r: Submission<ProductsSaveRoute.Form>)
    ensures s.categoryName == NoCategory ==> r == Refused("Category is not selected")
    ensures s.categoryName != NoCategory && !AllChosen(s.chosen, s.allProps) ==>
      r == Refused("One or more of the property values is not selected")
    ensures s.categoryName != NoCategory && AllChosen(s.chosen, s.allProps) && |s.pending| == 0 ==>
      r == Refused("Please upload at least 1 image")
    ensures s.categoryName != NoCategory && AllChosen(s.chosen, s.allProps) && |s.pending| > 3 ==>
      r == Refused("Only a max of 3 images is allowed")
    ensures r.Sent? <==> s.categoryName != NoCategory && AllChosen(s.chosen, s.allProps) && 1 <= |s.pending| <= 3
    ensures r.Sent? ==>
      && r.form == SaveForm(s) && |r.fields| == |s.pending|
      && forall i :: 0 <= i < |s.pending| ==> r.fields[i] == Field(ImageKey(i), s.pending[i])
  {
    if s.categoryName == NoCategory {
      return Refused("Category is not selected");
    }
    if |s.chosen.Keys| != |s.allProps| {
      return Refused("One or more of the property values is not selected");
    }
    if |s.pending| == 0 {
      return Refused("Please upload at least 1 image");
    }
    if |s.pending| > 3 {
      return Refused("Only a max of 3 images is allowed");
    }
    var fields := ImageFields(s.pending);
    r := Sent(fields, SaveForm(s));
  }

  /** The route finds every pending image of a sent form, in order, and
    * all of its key checks pass. */
  lemma SentFormReachesRoute(s: State)
    requires forall i :: 0 <= i < |s.pending| ==> Text.Contains(s.pending[i].mimeType, "image")
    ensures ImageFiles(SaveForm(s).rest) == s.pending
    ensures Guard<()>(ProductsSaveRoute.Checks(SaveForm(s))).None?
  {
    ImageFilesOfFileEntries(s.pending, [TextEntry(s.currency)]);
  }

  /** The discount input; its value becomes the state's discount. */
  function DiscountChanged(s: State, parsed: Option<int>): (t: State)
    ensures 0 <= s.discount <= 100 ==> 0 <= t.discount <= 100
    ensures t == s.(discount := DiscountInput(s.discount, parsed))
  {
    s.(discount := DiscountInput(s.discount, parsed))
  }
}
