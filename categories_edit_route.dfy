/** `api/categories/edit`: rewrites the category carrying the sent name,
  * replaces its image when new files come, and moves its name from the
  * old parent's children to the new parent's. */
module CategoriesEditRoute {
  import opened Wrappers
  import opened Records
  import opened Http
  import opened Collections
  import opened Database
  import opened StorageService
  import opened InlineUpload
  import opened CategoryTree

  /** The form; the route checks that `id` is present but never reads it. */
  datatype Form = Form(
    hasId: bool, name: Option<string>, parentCategory: Option<Json<Parent>>,
    properties: Option<Json<seq<Property>>>, rest: seq<Entry>)

  function Checks(f: Form): seq<Check>
  {
    [ Check(f.hasId, "id key is missing"),
      Check(f.name.Some?, "name key is missing"),
      Check(f.parentCategory.Some?, "parentCategory key is missing"),
      Check(f.properties.Some?, "properties key is missing") ]
  }

  predicate WellFormed(f: Form)
  {
    && f.hasId && f.name.Some?
    && f.parentCategory.Some? && f.parentCategory.value.Json?
    && f.properties.Some? && f.properties.value.Json?
  }

  /** The answer the route gives before its `try` block, if any. The
    * lookup by name runs outside the `try`, so a failing `findOne` is an
    * unhandled error. */
  function Rejection(token: bool, svc: Config, f: Form, cats: seq<Category>, faults: Faults): (r: Option<Response<()>>)
    ensures !token ==> r == Some(Unauthorized())
    ensures token && Guard<()>(Checks(f)).Some? ==> r == Guard(Checks(f))
    ensures token && Guard<()>(Checks(f)).None? && !WellFormed(f) ==> r == Some(ParseCrash())
    ensures token && WellFormed(f) && !Complete(svc) ==>
      r == Some(Response(500, Error("A credential/property is missing")))
    ensures token && WellFormed(f) && Complete(svc) && Find in faults ==>
      r == Some(Response(500, Unhandled(faults[Find])))
    ensures r.None? <==>
      && token && WellFormed(f) && Complete(svc) && Find !in faults
      && FindByName(cats, f.name.value).Some?
      && (|FindByName(cats, f.name.value).value.images| > 0 || |ImageFiles(f.rest)| > 0)
    ensures token && WellFormed(f) && Complete(svc) && Find !in faults && FindByName(cats, f.name.value).None? ==>
      r == Some(Response(409, Error("Category " + f.name.value + " no longer exists")))
    ensures token && WellFormed(f) && Complete(svc) && Find !in faults && FindByName(cats, f.name.value).Some?
            && |FindByName(cats, f.name.value).value.images| == 0 && |ImageFiles(f.rest)| == 0 ==>
      r == Some(Response(400, Error("Please upload at least one image. No image is saved")))
  {
    if !token then Some(Unauthorized())
    else if Guard<()>(Checks(f)).Some? then Guard(Checks(f))
    else
      assert Checks(f)[0].passes && Checks(f)[1].passes && Checks(f)[2].passes && Checks(f)[3].passes;
      if f.parentCategory.value.UndefinedText? || f.properties.value.UndefinedText? then Some(ParseCrash())
      else if !Complete(svc) then Some(Response(500, Error("A credential/property is missing")))
      else if Find in faults then Some(Response(500, Unhandled(faults[Find])))
      else
        match FindByName(cats, f.name.value)
        case None => Some(Response(409, Error("Category " + f.name.value + " no longer exists")))
        case Some(category) =>
          if |category.images| == 0 && |ImageFiles(f.rest)| == 0 then
            Some(Response(400, Error("Please upload at least one image. No image is saved")))
          else None
  }

  /** The parent the edited document stores. */
  function EditedParent(p: Parent): Parent
  {
    if HasKeys(p) then p else NameOnly("")
  }

  /** The first `updateOne`, on the category carrying the sent name. */
  function Rewritten(cats: seq<Category>, name: string, parent: Parent, properties: seq<Property>,
                     images: seq<StoredImage>, now: nat): (r: seq<Category>)
    ensures SameNames(r, cats)
    ensures FirstNamed(cats, Some(name)).None? ==> r == cats
    ensures FirstNamed(cats, Some(name)).Some? ==>
      var i := FirstNamed(cats, Some(name)).value;
      && r[i] == cats[i].(parent := EditedParent(parent), properties := properties, images := images, updated := now)
      && forall k :: 0 <= k < |cats| && k != i ==> r[k] == cats[k]
  {
    UpdateFirst(cats, c => Named(Some(name), c),
      (c: Category) => c.(name := name, parent := EditedParent(parent), properties := properties, images := images, updated := now))
  }

  /** The categories after a completed edit. */
  function Edited(cats: seq<Category>, oldParent: Parent, name: string, parent: Parent,
                  properties: seq<Property>, images: seq<StoredImage>, now: nat): seq<Category>
  {
    var rewritten := Rewritten(cats, name, parent, properties, images, now);
    var pulled := PullChild(rewritten, ParentName(oldParent), name, now);
    PushChildAt(pulled, ParentName(parent), name, now)
  }

  /** The edited category gets the sent parent (or `{name: ''}` for `{}`),
    * properties and images; no name changes. */
  lemma EditRewritesCategory(cats: seq<Category>, oldParent: Parent, name: string, parent: Parent,
                             properties: seq<Property>, images: seq<StoredImage>, now: nat, i: nat)
    requires FirstNamed(cats, Some(name)) == Some(i)
    ensures var r := Edited(cats, oldParent, name, parent, properties, images, now);
      && SameNames(r, cats)
      && r[i].parent == EditedParent(parent) && r[i].properties == properties && r[i].images == images
  {
  }

  /** Re-saving a category under the parent it already has leaves its name
    * listed exactly once, as the last child of that parent. */
  lemma SameParentListsOnceAtEnd(cats: seq<Category>, oldParent: Parent, name: string, parent: Parent,
                                 properties: seq<Property>, images: seq<StoredImage>, now: nat, i: nat)
    requires ParentName(oldParent) == ParentName(parent)
    requires FirstNamed(cats, ParentName(parent)) == Some(i)
    requires ParentName(parent) != Some(name)
    ensures var r := Edited(cats, oldParent, name, parent, properties, images, now);
      && |r| == |cats| && r[i].name == cats[i].name
      && Count(r[i].childCategories, name) == 1
      && r[i].childCategories[|r[i].childCategories| - 1] == name
  {
    var target := ParentName(parent);
    var rewritten := Rewritten(cats, name, parent, properties, images, now);
    var pulled := PullChild(rewritten, target, name, now);
    FirstNamedBySameNames(rewritten, cats, target);
    FirstNamedBySameNames(pulled, cats, target);
    assert rewritten[i] == cats[i];
    RepushLeavesOneAtEnd(cats[i].childCategories, name);
  }

  /** Moving a category to another parent takes its name off the old
    * parent's children and lists it last among the new parent's. */
  lemma MoveRelistsChild(cats: seq<Category>, oldParent: Parent, name: string, parent: Parent,
                         properties: seq<Property>, images: seq<StoredImage>, now: nat, i: nat, j: nat)
    requires FirstNamed(cats, ParentName(oldParent)) == Some(i)
    requires FirstNamed(cats, ParentName(parent)) == Some(j)
    requires i != j
    requires ParentName(parent) != Some(name)
    ensures var r := Edited(cats, oldParent, name, parent, properties, images, now);
      && |r| == |cats|
      && name !in r[i].childCategories
      && r[j].childCategories == cats[j].childCategories + [name]
  {
    var rewritten := Rewritten(cats, name, parent, properties, images, now);
    var pulled := PullChild(rewritten, ParentName(oldParent), name, now);
    FirstNamedBySameNames(rewritten, cats, ParentName(oldParent));
    FirstNamedBySameNames(pulled, cats, ParentName(parent));
    assert rewritten[j] == cats[j];
  }

  /** The three updates of the `try` block: a failed update, pull or push
    * keeps the updates before it (there is no transaction). */
  predicate UpdateOutcome(
    before: seq<Category>, after: seq<Category>, r: Response<()>, oldParent: Parent,
    name: string, parent: Parent, properties: seq<Property>, images: seq<StoredImage>, now: nat, faults: Faults)
  {
    var rewritten := Rewritten(before, name, parent, properties, images, now);
    if Update in faults then
      r == Response(503, Error(faults[Update])) && after == before
    else if Pull in faults then
      r == Response(503, Error(faults[Pull])) && after == rewritten
    else if Push in faults then
      r == Response(503, Error(faults[Push])) && after == PullChild(rewritten, ParentName(oldParent), name, now)
    else
      r == Response(200, Success) && after == Edited(before, oldParent, name, parent, properties, images, now)
  }

  /** What the `try` block leaves behind: an upload that throws keeps the
    * objects stored before it and changes no document; a failed deletion of the first old image keeps the
    * new objects; after it come the three updates. */
  predicate TryOutcome(
    before: DocSet, objectsBefore: set<string>, after: DocSet, objectsAfter: set<string>, r: Response<()>,
    svc: Config, category: Category, name: string, parent: Parent, properties: seq<Property>,
    files: seq<Upload>, times: seq<nat>, now: nat, faults: Faults, failAt: nat)
    requires |times| == |files|
  {
    var links := ImagesFor(svc, files, times);
    var deletes := |files| > 0 && |category.images| > 0;
    if UploadFails(files, faults, failAt) then
      && r == Response(503, Error(faults[PutObject])) && after == before
      && objectsAfter == objectsBefore + KeysOf(ImagesFor(svc, files[..failAt], times[..failAt]))
    else if deletes && DeleteObject in faults then
      r == Response(503, Error(faults[DeleteObject])) && after == before && objectsAfter == objectsBefore + KeysOf(links)
    else
      && objectsAfter == objectsBefore + KeysOf(links) - (if deletes then {category.images[0].key} else {})
      && after == before.(categories := after.categories)
      && UpdateOutcome(before.categories, after.categories, r, category.parent, name, parent, properties,
                       if |files| > 0 then links else category.images, now, faults)
  }

  /** The three updates. */
  method UpdateTree(st: Store, oldParent: Parent, name: string, parent: Parent, properties: seq<Property>,
                 images: seq<StoredImage>, now: nat, faults: Faults) returns (r: Response<()>)
    modifies st`categories
    ensures UpdateOutcome(old(st.categories), st.categories, r, oldParent, name, parent, properties, images, now, faults)
  {
    if Update in faults {
      return Response(503, Error(faults[Update]));
    }
    st.categories := Rewritten(st.categories, name, parent, properties, images, now);
    if Pull in faults {
      return Response(503, Error(faults[Pull]));
    }
    st.categories := PullChild(st.categories, ParentName(oldParent), name, now);
    if Push in faults {
      return Response(503, Error(faults[Push]));
    }
    st.categories := PushChildAt(st.categories, ParentName(parent), name, now);
    return Response(200, Success);
  }

  /** The `try` block. */
  method Apply(st: Store, svc: Config, category: Category, name: string, parent: Parent, properties: seq<Property>,
               files: seq<Upload>, times: seq<nat>, now: nat, faults: Faults, failAt: nat) returns (r: Response<()>)
    requires |times| == |files|
    modifies st
    ensures TryOutcome(old(st.Docs()), old(st.objects), st.Docs(), st.objects, r,
                       svc, category, name, parent, properties, files, times, now, faults, failAt)
  {
    ghost var before := st.Docs();
    var imageLinks := UploadEach(st, svc, files, times, faults, failAt);
    assert st.Docs() == before;
    if imageLinks.Thrown? {
      return Response(503, Error(imageLinks.error));
    }
    if |files| > 0 && |category.images| > 0 {
      if DeleteObject in faults {
        return Response(503, Error(faults[DeleteObject]));
      }
      st.objects := st.objects - {category.images[0].key};
    }
    var images := if |files| > 0 then imageLinks.value else category.images;
    ghost var docs := st.Docs();
    r := UpdateTree(st, category.parent, name, parent, properties, images, now, faults);
    assert st.Docs() == docs.(categories := st.categories);
  }

  /** POST. The guards, the JSON parsing, the storage configuration, the
    * lookup by name and the image check answer before any change; inside
    * the `try` the uploads, the deletion of the first old image and the
    * three updates run one after another without a transaction. */
  method Post(st: Store, token: bool, svc: Config, f: Form, times: seq<nat>, now: nat, faults: Faults, failAt: nat)
    returns (r: Response<()>)
    requires |times| == |ImageFiles(f.rest)|
    modifies st
    ensures Rejection(token, svc, f, old(st.categories), faults).Some? ==>
      && r == Rejection(token, svc, f, old(st.categories), faults).value
      && st.Docs() == old(st.Docs()) && st.objects == old(st.objects)
    ensures Rejection(token, svc, f, old(st.categories), faults).None? ==>
      TryOutcome(old(st.Docs()), old(st.objects), st.Docs(), st.objects, r,
                 svc, FindByName(old(st.categories), f.name.value).value, f.name.value,
                 f.parentCategory.value.value, f.properties.value.value, ImageFiles(f.rest), times, now, faults, failAt)
  {
    var rejection := Rejection(token, svc, f, st.categories, faults);
    if rejection.Some? {
      return rejection.value;
    }
    var category := FindByName(st.categories, f.name.value).value;
    r := Apply(st, svc, category, f.name.value, f.parentCategory.value.value, f.properties.value.value,
               ImageFiles(f.rest), times, now, faults, failAt);
  }

  /** GET is not supported. */
  function Get(token: bool): (r: Response<()>)
    ensures r.status == (if token then 405 else 401)
  {
    if !token then Unauthorized() else NotSupported("GET")
  }
}
