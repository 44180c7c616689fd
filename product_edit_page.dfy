/** The "edit product" page: it loads a product with the categories, asks
  * for exactly three images (saved and pending together), and posts to
  * `api/products/edit`. */
module ProductEditPage {
  import opened Wrappers
  import opened Records
  import opened Http
  import opened Collections
  import opened FormInputs
  import opened ProductForms
  import StorageService
  import ProductsEditRoute
  import ImageDeleteRoute

  const NoCategory := "Select Category"

  /** The page state. `id` is the `id` search parameter, `saved` the
    * product's stored images. */
  datatype State = State(
    id: Id, name: string, brand: string, description: string, contents: string,
    categories: seq<Category>, categoryName: string, chosen: map<string, string>,
    price: int, currency: string, discount: int, stock: int,
    pending: seq<Upload>, saved: seq<StoredImage>, allProps: seq<Property>, notice: string)

  /** The load handler's fill: every property name of the category that
    * the product has no value for is set to '' on the state's own object
    * (`start`), and the product's values are then laid over it. */
  method FillChosen(start: map<string, string>, props: seq<Property>, product: map<string, string>)
    returns (chosen: map<string, string>)
    ensures chosen.Keys == start.Keys + Names(props) + product.Keys
    ensures forall k :: k in product ==> chosen[k] == product[k]
    ensures forall k :: k in Names(props) && k !in product ==> chosen[k] == ""
    ensures forall k :: k in start && k !in Names(props) && k !in product ==> chosen[k] == start[k]
  {
    var current := start;
    var i := 0;
    while i < |props|
      invariant 0 <= i <= |props|
      invariant start.Keys <= current.Keys
      invariant forall k :: k in current ==> k in start || (k in Names(props) && k !in product)
      invariant forall j :: 0 <= j < i && props[j].name !in product ==> props[j].name in current && current[props[j].name] == ""
      invariant forall k :: k in start && (forall j :: 0 <= j < i ==> props[j].name != k) ==> current[k] == start[k]
    {
      if props[i].name !in product {
        current := current[props[i].name := ""];
      }
      i := i + 1;
    }
    chosen := current + product;
    assert forall k :: k in Names(props) && k !in product ==> k in current && current[k] == "" by {
      forall k | k in Names(props) && k !in product ensures k in current && current[k] == "" {
        var j :| 0 <= j < |props| && props[j].name == k;
      }
    }
  }

  /** A successful product fetch. The properties on show are the product
    * category's own list (the first category with that name), if there
    * is one; the rest of the form is the product's. */
  method Loaded(s: State, categories: seq<Category>, product: Product) returns (t: State)
    ensures var found := FirstIndex(categories, (c: Category) => c.name == product.category);
      var props := if found.Some? then categories[found.value].properties else [];
      && t.allProps == (if found.Some? then props else s.allProps)
      && t.chosen.Keys == s.chosen.Keys + Names(props) + product.properties.Keys
      && (forall k :: k in product.properties ==> t.chosen[k] == product.properties[k])
      && (forall k :: k in Names(props) && k !in product.properties ==> t.chosen[k] == "")
      && (forall k :: k in s.chosen && k !in Names(props) && k !in product.properties ==> t.chosen[k] == s.chosen[k])
      && t.name == product.name && t.brand == product.brand && t.description == product.description
      && t.contents == product.contents && t.categoryName == product.category && t.saved == product.images
      && t.price == product.price && t.discount == product.discount && t.currency == product.currency
      && t.stock == product.stock && t.pending == s.pending && t.categories == categories
  {
    var found := FirstIndex(categories, (c: Category) => c.name == product.category);
    var props := if found.Some? then categories[found.value].properties else [];
    var chosen := FillChosen(s.chosen, props, product.properties);
    t := s.(categories := categories, name := product.name, description := product.description,
            price := product.price, categoryName := product.category, brand := product.brand,
            contents := product.contents,
            allProps := if found.Some? then categories[found.value].properties else s.allProps,
            chosen := chosen, saved := product.images, stock := product.stock,
            discount := product.discount, currency := product.currency);
  }

  /** What the category select leaves in `allProps`: each step of its
    * loop writes a level's own list followed by its parent's, and the
    * last write wins, so only the two deepest levels of the chain that
    * still carry an `_id` are listed. */
  function LastPair(c: Category): seq<Property>
  {
    if c.parent.Snapshot? then
      if c.parent.doc.parent.Snapshot? then LastPair(c.parent.doc) else c.properties + c.parent.doc.properties
    else c.properties
  }

  /** The category select's change handler; the option values are the
    * fetched categories' names. */
  method ChooseCategory(s: State, choice: string) returns (t: State)
    requires exists j :: 0 <= j < |s.categories| && s.categories[j].name == choice
    ensures var i := FirstIndex(s.categories, (c: Category) => c.name == choice).value;
      t == s.(chosen := map[], categoryName := choice, allProps := LastPair(s.categories[i]))
  {
    var i := FirstIndex(s.categories, (c: Category) => c.name == choice).value;
    var curr := s.categories[i];
    var allProps := curr.properties;
    while curr.parent.Snapshot?
      invariant LastPair(s.categories[i]) == (if curr.parent.Snapshot? then LastPair(curr) else allProps)
      decreases curr
    {
      allProps := curr.properties + curr.parent.doc.properties;
      curr := curr.parent.doc;
    }
    t := s.(chosen := map[], categoryName := s.categories[i].name, allProps := allProps);
  }

  /** With a parent, the list is the category's own properties and the
    * parent's; with a grandparent, the category's own are dropped. */
  lemma ChainOfTwoAndThree(c: Category)
    ensures c.parent.Snapshot? && !c.parent.doc.parent.Snapshot? ==>
      LastPair(c) == c.properties + c.parent.doc.properties
    ensures c.parent.Snapshot? && c.parent.doc.parent.Snapshot? && !c.parent.doc.parent.doc.parent.Snapshot? ==>
      LastPair(c) == c.parent.doc.properties + c.parent.doc.parent.doc.properties
  {
  }

  /** `uploadImage`: refused when the batch and the saved images together
    * exceed three; pending images are not counted. */
  function UploadImage(s: State, files: Option<seq<Upload>>, validation: Validation): (t: State)
    ensures t.saved == s.saved && t.allProps == s.allProps && t.chosen == s.chosen
    ensures t.pending != s.pending <==>
      files.Some? && 0 < |files.value| && |files.value| + |s.saved| <= 3 && validation.Files? && |validation.files| > 0
    ensures t.pending != s.pending ==> t.pending == s.pending + validation.files
    ensures files.Some? && |files.value| + |s.saved| > 3 ==> t.notice == "Only a max of 3 images is allowed"
  {
    if files.None? then s
    else if |files.value| + |s.saved| > 3 then s.(notice := "Only a max of 3 images is allowed")
    else if |files.value| > 0 && validation.Files? then s.(pending := s.pending + validation.files, notice := "")
    else s.(notice := "")
  }

  /** Because pending images are not counted, two single-file uploads
    * beside two saved images are both taken, leaving four in all; the
    * submit then refuses with 'Please upload 3 images'. */
  lemma PendingNotCounted(s: State, file: Upload, accepted: Upload)
    requires |s.saved| == 2 && |s.pending| == 0
    ensures var t := UploadImage(UploadImage(s, Some([file]), Files([accepted])), Some([file]), Files([accepted]));
            |t.pending| + |t.saved| == 4
  {
  }

  /** The form `api/products/edit` receives; it removes every named field,
    * `currency` included, so only the image fields are left. */
  function EditForm(s: State): ProductsEditRoute.Form
  {
    ProductsEditRoute.Form(Some(s.id), Some(s.name), Some(s.brand), Some(s.description), Some(s.contents),
      Some(s.price), Some(s.categoryName), Some(Json(s.chosen)), Some(s.discount), Some(s.stock),
      Some(s.currency), FileEntries(s.pending))
  }

  /** `handleSubmit`. After the exact-three check, its "more than three"
    * branch cannot be taken. */
  method Submit(s: State) returns (r: Submission<ProductsEditRoute.Form>)
    ensures s.categoryName == NoCategory ==> r == Refused("Category is not selected")
    ensures s.categoryName != NoCategory && !AllChosen(s.chosen, s.allProps) ==>
      r == Refused("One or more of the property values is not selected")
    ensures s.categoryName != NoCategory && AllChosen(s.chosen, s.allProps) && |s.pending| + |s.saved| != 3 ==>
      r == Refused("Please upload 3 images")
    ensures r.Sent? <==> s.categoryName != NoCategory && AllChosen(s.chosen, s.allProps) && |s.pending| + |s.saved| == 3
    ensures r.Sent? ==>
      && r.form == EditForm(s) && |r.fields| == |s.pending|
      && forall i :: 0 <= i < |s.pending| ==> r.fields[i] == Field(ImageKey(i), s.pending[i])
  {
    if s.categoryName == NoCategory {
      return Refused("Category is not selected");
    }
    if |s.chosen.Keys| != |s.allProps| {
      return Refused("One or more of the property values is not selected");
    }
    if |s.pending| + |s.saved| != 3 {
      return Refused("Please upload 3 images");
    }
    if |s.pending| + |s.saved| > 3 {
      assert false;
    }
    var fields := ImageFields(s.pending);
    r := Sent(fields, EditForm(s));
  }

  /** A sent form passes the route's key checks, and the route finds
    * every pending image, in order. */
  lemma SentFormIsWellFormed(s: State)
    ensures ProductsEditRoute.WellFormed(EditForm(s))
    ensures (forall i :: 0 <= i < |s.pending| ==> Text.Contains(s.pending[i].mimeType, "image")) ==>
      ImageFiles(EditForm(s).rest) == s.pending
  {
    if forall i :: 0 <= i < |s.pending| ==> Text.Contains(s.pending[i].mimeType, "image") {
      ImageFilesOfFileEntries(s.pending, []);
      assert FileEntries(s.pending) + [] == FileEntries(s.pending);
    }
  }

  /** What the trash button on a saved image does. */
  datatype SavedDelete = Kept(notice: string) | Requested(body: ImageDeleteRoute.Request)

  /** `handleImageDeletion`: the last saved image cannot be deleted. */
  function DeleteSaved(s: State, image: StoredImage): (d: SavedDelete)
    ensures |s.saved| == 1 <==> d == Kept("There should be at least 1 image saved")
    ensures |s.saved| != 1 ==> d == Requested(ImageDeleteRoute.Request(Some(s.id), Some(image)))
  {
    if |s.saved| == 1 then Kept("There should be at least 1 image saved")
    else Requested(ImageDeleteRoute.Request(Some(s.id), Some(image)))
  }

  /** The request passes every guard of `api/image/delete` once the storage
    * configuration is complete, so the image's object is deleted and its
    * record pulled from this product. */
  lemma SavedDeleteReachesRoute(s: State, image: StoredImage, svc: StorageService.Config)
    requires |s.saved| != 1 && StorageService.Complete(svc)
    ensures ImageDeleteRoute.Rejection(true, svc, Some(DeleteSaved(s, image).body)).None?
  {
  }

  /** The trash button on pending image `i`. */
  function RemovePending(s: State, i: nat): (t: State)
    requires i < |s.pending|
    ensures |t.pending| == |s.pending| - 1 && multiset(t.pending) + multiset{s.pending[i]} == multiset(s.pending)
    ensures t.saved == s.saved && t.allProps == s.allProps && t.chosen == s.chosen
  {
    s.(pending := RemoveAt(s.pending, i))
  }

  /** The discount input; its value becomes the state's discount. */
  function DiscountChanged(s: State, parsed: Option<int>): (t: State)
    ensures 0 <= s.discount <= 100 ==> 0 <= t.discount <= 100
    ensures t == s.(discount := DiscountInput(s.discount, parsed))
  {
    s.(discount := DiscountInput(s.discount, parsed))
  }
}
