/** The "new category" page: one pending image, a list of properties, a
  * parent picked by name, and a submit that posts to `api/categories/save`. */
module CategoryNewPage {
  import opened Wrappers
  import opened Records
  import opened Http
  import opened Collections
  import opened FormInputs
  import CategoriesSaveRoute

  /** The page state; `notice` is the text under the image box. */
  datatype State = State(
    name: string, properties: seq<Property>, categories: seq<Category>,
    parent: string, pending: seq<Upload>, notice: string)

  /** `uploadImage`. Once an image is pending every upload is refused; the
    * first accepted batch is not counted, so it may bring several files. */
  function UploadImage(s: State, files: Option<seq<Upload>>, validation: Validation): (t: State)
    ensures t.name == s.name && t.properties == s.properties && t.categories == s.categories && t.parent == s.parent
    ensures |s.pending| >= 1 ==> t.pending == s.pending
    ensures t.pending != s.pending <==>
      |s.pending| == 0 && files.Some? && |files.value| > 0 && validation.Files? && |validation.files| > 0
    ensures t.pending != s.pending ==> t.pending == validation.files
    ensures t.notice == (if files.Some? && |s.pending| >= 1 then "Only a max of 1 image is allowed" else "")
  {
    if files.None? then s.(notice := "")
    else if |s.pending| >= 1 then s.(notice := "Only a max of 1 image is allowed")
    else if |files.value| > 0 && validation.Files? then s.(pending := s.pending + validation.files, notice := "")
    else s.(notice := "")
  }

  /** `handleSubmit`: exactly one pending image is required. */
  method Submit(s: State) returns (r: Submission<CategoriesSaveRoute.Form>)
    ensures |s.pending| == 0 ==> r == Refused("Please upload at least 1 image")
    ensures |s.pending| > 1 ==> r == Refused("Only a max of 1 image is allowed")
    ensures |s.pending| == 1 ==>
      && r.Sent? && r.fields == [Field("image0", s.pending[0])]
      && r.form == CategoriesSaveRoute.Form(Some(s.name), Some(ParentField(s.categories, s.parent)),
                                            Some(Json(s.properties)), [FileEntry(s.pending[0])])
  {
    if |s.pending| == 0 {
      return Refused("Please upload at least 1 image");
    }
    if |s.pending| > 1 {
      return Refused("Only a max of 1 image is allowed");
    }
    var fields := ImageFields(s.pending);
    assert ImageKey(0) == "image0";
    r := Sent(fields, CategoriesSaveRoute.Form(Some(s.name), Some(ParentField(s.categories, s.parent)),
                                               Some(Json(s.properties)), FileEntries(s.pending)));
  }

  /** A form the page sends passes all of the route's key checks whenever
    * the chosen parent is "No Parent Category" or a fetched category, and
    * its image check whenever the file is an image. */
  lemma SentFormIsWellFormed(s: State, f: CategoriesSaveRoute.Form)
    requires |s.pending| == 1
    requires s.parent == NoParent || exists j :: 0 <= j < |s.categories| && s.categories[j].name == s.parent
    requires f == CategoriesSaveRoute.Form(Some(s.name), Some(ParentField(s.categories, s.parent)),
                                           Some(Json(s.properties)), [FileEntry(s.pending[0])])
    ensures CategoriesSaveRoute.WellFormed(f)
    ensures |ImageFiles(f.rest)| > 0 <==> Text.Contains(s.pending[0].mimeType, "image")
  {
    var rest := f.rest;
    assert rest[1..] == [];
  }

  /** A batch taken while no image is pending is kept whole, however many
    * files it holds, and no later upload adds to it; `Submit` then refuses
    * the page's own state with 'Only a max of 1 image is allowed'. */
  lemma FirstBatchIsUnchecked(s: State, files: seq<Upload>, accepted: seq<Upload>,
                               later: Option<seq<Upload>>, validation: Validation)
    requires |s.pending| == 0 && |files| > 0 && |accepted| > 1
    ensures UploadImage(s, Some(files), Files(accepted)).pending == accepted
    ensures var t := UploadImage(s, Some(files), Files(accepted));
            UploadImage(t, later, validation).pending == accepted
  {
  }
}
