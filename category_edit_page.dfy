/** The "edit category" page: it loads one category with the others, keeps
  * at most one pending image beside the saved ones, flags blank-valued
  * properties as custom, and posts to `api/categories/edit`. */
module CategoryEditPage {
  import opened Wrappers
  import opened Records
  import opened Http
  import opened Collections
  import opened FormInputs
  import StorageService
  import CategoriesEditRoute
  import ImageDeleteRoute

  /** The page state. `id` is the `id` search parameter; `choices` are the
    * categories the parent select offers; `saved` are the stored images. */
  datatype State = State(
    id: Id, name: string, properties: seq<Property>, choices: seq<Category>,
    parent: string, saved: seq<StoredImage>, pending: seq<Upload>, notice: string)

  /** A category the page may offer as parent: not this one, and not one of
    * its direct children (grandchildren are offered). */
  predicate Eligible(id: Id, self: Category, c: Category)
  {
    c.id != id && c.name !in self.childCategories
  }

  /** The fetch handler, given the answer's `category` and `categories`. */
  function Loaded(s: State, self: Category, categories: seq<Category>): (t: State)
    ensures forall k :: 0 <= k < |t.choices| ==> t.choices[k] in categories && Eligible(s.id, self, t.choices[k])
    ensures forall k :: 0 <= k < |categories| && Eligible(s.id, self, categories[k]) ==> categories[k] in t.choices
    ensures t.name == self.name && t.properties == self.properties && t.saved == self.images
    ensures t.parent == (if ParentName(self.parent).Some? && ParentName(self.parent).value != "" then ParentName(self.parent).value else s.parent)
    ensures t.id == s.id && t.pending == s.pending
  {
    var parent := ParentName(self.parent);
    s.(choices := Filter(categories, (c: Category) => Eligible(s.id, self, c)),
       name := self.name,
       parent := if parent.Some? && parent.value != "" then parent.value else s.parent,
       properties := self.properties, saved := self.images)
  }

  /** The parent the page sends after a load is never the category itself
    * nor one of its direct children. */
  lemma ParentIsNeverSelfOrChild(s: State, self: Category, categories: seq<Category>, choice: string)
    ensures var p := ParentField(Loaded(s, self, categories).choices, choice);
            p.Json? && p.value.Snapshot? ==>
              p.value.doc.id != s.id && p.value.doc.name !in self.childCategories && p.value.doc in categories
  {
    var t := Loaded(s, self, categories);
    var p := ParentField(t.choices, choice);
    if p.Json? && p.value.Snapshot? {
      var k :| 0 <= k < |t.choices| && t.choices[k] == p.value.doc;
    }
  }

  /** `uploadImage`: a batch of more than one file, or any batch while an
    * image is pending, is refused. */
  function UploadImage(s: State, files: Option<seq<Upload>>, validation: Validation): (t: State)
    ensures t.properties == s.properties && t.saved == s.saved && t.choices == s.choices && t.name == s.name
    ensures t.pending != s.pending <==>
      && files.Some? && |files.value| == 1 && |s.pending| == 0
      && validation.Files? && |validation.files| > 0
    ensures t.pending != s.pending ==> t.pending == validation.files
    ensures files.Some? && (|files.value| > 1 || |s.pending| >= 1) ==> t.notice == "Only a max of 1 image is allowed"
  {
    if files.None? then s.(notice := "")
    else if |files.value| > 1 || |s.pending| >= 1 then s.(notice := "Only a max of 1 image is allowed")
    else if |files.value| > 0 && validation.Files? then s.(pending := s.pending + validation.files, notice := "")
    else s.(notice := "")
  }

  /** If the validator never returns more files than it was given, at most
    * one image is ever pending. */
  lemma AtMostOnePending(s: State, files: Option<seq<Upload>>, validation: Validation)
    requires |s.pending| <= 1
    requires files.Some? && validation.Files? ==> |validation.files| <= |files.value|
    ensures |UploadImage(s, files, validation).pending| <= 1
  {
  }

  /** Blank-valued properties are marked custom; nothing else changes. */
  function Flag(p: Property): (q: Property)
    ensures q.name == p.name && q.value == p.value
    ensures q.custom == (if p.value == "" then Some(true) else p.custom)
  {
    if p.value == "" then p.(custom := Some(true)) else p
  }

  function Flagged(props: seq<Property>): (r: seq<Property>)
    ensures |r| == |props| && forall k :: 0 <= k < |props| ==> r[k] == Flag(props[k])
  {
    seq(|props|, k requires 0 <= k < |props| => Flag(props[k]))
  }

  /** Flagging twice is flagging once, and a flagged list has no blank
    * value without `custom: true`. */
  lemma FlaggedIdempotent(props: seq<Property>)
    ensures Flagged(Flagged(props)) == Flagged(props)
    ensures forall k :: 0 <= k < |props| && Flagged(props)[k].value == "" ==> Flagged(props)[k].custom == Some(true)
  {
  }

  /** `properties.forEach(p => { if (!p.value) p.custom = true })`, in place. */
  method FlagCustom(props: array<Property>)
    modifies props
    ensures props[..] == Flagged(old(props[..]))
  {
    var i := 0;
    while i < props.Length
      invariant 0 <= i <= props.Length
      invariant forall k :: 0 <= k < i ==> props[k] == Flag(old(props[k]))
      invariant forall k :: i <= k < props.Length ==> props[k] == old(props[k])
    {
      if props[i].value == "" {
        props[i] := props[i].(custom := Some(true));
      }
      i := i + 1;
    }
  }

  /** `handleSubmit`. The guards count saved and pending images together
    * for the lower bound and pending ones alone for the upper. The flags
    * are set on the state's own property objects, so the page keeps them. */
  method Submit(s: State) returns (t: State, r: Submission<CategoriesEditRoute.Form>)
    ensures |s.pending| + |s.saved| == 0 ==> r == Refused("Please upload at least 1 image") && t == s
    ensures |s.pending| + |s.saved| > 0 && |s.pending| > 1 ==> r == Refused("Only a max of 1 image is allowed") && t == s
    ensures |s.pending| + |s.saved| > 0 && |s.pending| <= 1 ==>
      && t == s.(properties := Flagged(s.properties))
      && r.Sent? && |r.fields| == |s.pending|
      && (forall i :: 0 <= i < |s.pending| ==> r.fields[i] == Field(ImageKey(i), s.pending[i]))
      && r.form == CategoriesEditRoute.Form(true, Some(s.name), Some(ParentField(s.choices, s.parent)),
                                            Some(Json(Flagged(s.properties))), FileEntries(s.pending))
  {
    if |s.pending| + |s.saved| == 0 {
      return s, Refused("Please upload at least 1 image");
    }
    if |s.pending| > 1 {
      return s, Refused("Only a max of 1 image is allowed");
    }
    var fields := ImageFields(s.pending);
    var parent := ParentField(s.choices, s.parent);
    var props := new Property[|s.properties|](k requires 0 <= k < |s.properties| => s.properties[k]);
    assert props[..] == s.properties;
    FlagCustom(props);
    t := s.(properties := props[..]);
    r := Sent(fields, CategoriesEditRoute.Form(true, Some(s.name), Some(parent), Some(Json(props[..])), FileEntries(s.pending)));
  }

  /** A form the page sends passes the route's key checks whenever the
    * chosen parent is "No Parent Category" or one of the choices. */
  lemma SentFormIsWellFormed(s: State)
    requires s.parent == NoParent || exists j :: 0 <= j < |s.choices| && s.choices[j].name == s.parent
    ensures CategoriesEditRoute.WellFormed(CategoriesEditRoute.Form(
      true, Some(s.name), Some(ParentField(s.choices, s.parent)), Some(Json(Flagged(s.properties))), FileEntries(s.pending)))
  {
  }

  /** What the trash button on a saved image does. */
  datatype SavedDelete = Kept(notice: string) | Requested(body: ImageDeleteRoute.Request)

  /** `handleImageDeletion`: the last saved image cannot be deleted; any
    * other is sent to `api/image/delete` with this category's id. */
  function DeleteSaved(s: State, image: StoredImage): (d: SavedDelete)
    ensures |s.saved| == 1 <==> d == Kept("There should be at least 1 image saved")
    ensures |s.saved| != 1 ==> d == Requested(ImageDeleteRoute.Request(Some(s.id), Some(image)))
  {
    if |s.saved| == 1 then Kept("There should be at least 1 image saved")
    else Requested(ImageDeleteRoute.Request(Some(s.id), Some(image)))
  }

  /** The request passes every guard of `api/image/delete` once the storage
    * configuration is complete; that route then writes only products, so
    * the category keeps its image record. */
  lemma SavedDeleteReachesRoute(s: State, image: StoredImage, svc: StorageService.Config)
    requires |s.saved| != 1 && StorageService.Complete(svc)
    ensures DeleteSaved(s, image).Requested?
    ensures ImageDeleteRoute.Rejection(true, svc, Some(DeleteSaved(s, image).body)).None?
  {
  }

  /** The trash button on pending image `i`. */
  function RemovePending(s: State, i: nat): (t: State)
    requires i < |s.pending|
    ensures |t.pending| == |s.pending| - 1 && multiset(t.pending) + multiset{s.pending[i]} == multiset(s.pending)
    ensures t.saved == s.saved && t.properties == s.properties
  {
    s.(pending := RemoveAt(s.pending, i))
  }
}
