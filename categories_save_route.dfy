/** `api/categories/save`: creates a category from a multipart form inside
  * a transaction and lists it under its parent. */
module CategoriesSaveRoute {
  import opened Wrappers
  import opened Records
  import opened Http
  import opened Collections
  import opened Database
  import opened StorageService
  import opened CategoryTree

  /** The form: the three named fields and every other entry. */
  datatype Form = Form(
    name: Option<string>, parentCategory: Option<Json<Parent>>,
    properties: Option<Json<seq<Property>>>, rest: seq<Entry>)

  /** The key guards, in the order the route runs them. */
  function Checks(f: Form): seq<Check>
  {
    [ Check(f.name.Some?, "name key is missing"),
      Check(f.parentCategory.Some?, "parentCategory key is missing"),
      Check(f.properties.Some?, "properties key is missing"),
      Check(f.parentCategory != Some(UndefinedText), "parentCategory must have a non-null value"),
      Check(f.properties != Some(UndefinedText), "properties must have a non-null value") ]
  }

  predicate WellFormed(f: Form)
  {
    && f.name.Some?
    && f.parentCategory.Some? && f.parentCategory.value.Json?
    && f.properties.Some? && f.properties.value.Json?
  }

  /** The answer the route gives before its transaction starts, if any. A
    * failed connection is answered with the caught Error object itself;
    * the lookup by name runs outside any `try`, so a failing `findOne` is an
    * unhandled error. */
  function Rejection(token: bool, faults: Faults, f: Form, cats: seq<Category>): (r: Option<Response<()>>)
    ensures !token ==> r == Some(Unauthorized())
    ensures token && Connect in faults ==> r == Some(Response(503, ErrorObject))
    ensures token && Connect !in faults && !WellFormed(f) ==> r.Some? && r.value.status == 400
    ensures token && Connect !in faults && f.name.None? ==> r == Some(Response(400, Error("name key is missing")))
    ensures token && Connect !in faults && Guard<()>(Checks(f)).Some? ==> r == Guard(Checks(f))
    ensures token && Connect !in faults && WellFormed(f) && |ImageFiles(f.rest)| == 0 ==>
      r == Some(Response(400, Error("Please upload at least one image")))
    ensures token && Connect !in faults && WellFormed(f) && |ImageFiles(f.rest)| > 0 && Find in faults ==>
      r == Some(Response(500, Unhandled(faults[Find])))
    ensures r.None? <==>
      && token && Connect !in faults && WellFormed(f)
      && |ImageFiles(f.rest)| > 0 && Find !in faults
      && FindByName(cats, f.name.value).None?
    ensures r.Some? && r.value.status == 409 <==>
      && token && Connect !in faults && WellFormed(f) && |ImageFiles(f.rest)| > 0 && Find !in faults
      && FindByName(cats, f.name.value).Some?
    ensures token && Connect !in faults && WellFormed(f) && |ImageFiles(f.rest)| > 0 && Find !in faults
            && FindByName(cats, f.name.value).Some? ==>
      r == Some(Response(409, Error("Category already exists")))
  {
    if !token then Some(Unauthorized())
    else if Connect in faults then Some(Response(503, ErrorObject))
    else if Guard<()>(Checks(f)).Some? then
      assert Checks(f)[0].message == "name key is missing";
      Guard(Checks(f))
    else
      assert WellFormed(f) by {
        assert Checks(f)[0].passes && Checks(f)[1].passes && Checks(f)[2].passes;
        assert Checks(f)[3].passes && Checks(f)[4].passes;
      }
      if |ImageFiles(f.rest)| == 0 then Some(Response(400, Error("Please upload at least one image")))
      else if Find in faults then Some(Response(500, Unhandled(faults[Find])))
      else if FindByName(cats, f.name.value).Some? then Some(Response(409, Error("Category already exists")))
      else None
  }

  /** The parent the new document stores: the sent object when it has keys,
    * otherwise the schema default. */
  function StoredParent(p: Parent): Option<Parent>
  {
    if HasKeys(p) then Some(p) else None
  }

  /** The categories after a committed save. */
  function Saved(cats: seq<Category>, doc: Category, parent: Parent): seq<Category>
  {
    PushChild(cats + [doc], ParentName(parent), doc.name)
  }

  /** A committed save appends the new category and lists it as the last
    * child of the first category named like the parent it was sent;
    * every other category is untouched, and a parent sent as `{}` changes
    * no category. */
  lemma SaveListsChild(cats: seq<Category>, doc: Category, parent: Parent)
    requires FindByName(cats, doc.name).None?
    ensures var r := Saved(cats, doc, parent);
      && |r| == |cats| + 1
      && (forall i :: 0 <= i < |cats| && Some(cats[i].name) != ParentName(parent) ==> r[i] == cats[i])
      && (forall i :: FirstNamed(cats, ParentName(parent)) == Some(i) ==>
            r[i] == cats[i].(childCategories := cats[i].childCategories + [doc.name]))
      && (FirstNamed(cats, ParentName(parent)).None? && ParentName(parent) != Some(doc.name) ==>
            r == cats + [doc])
      && (parent.NoKeys? ==> r == cats + [doc])
  {
    var all := cats + [doc];
    var target := ParentName(parent);
    assert forall j :: 0 <= j < |cats| ==> all[j] == cats[j];
    match FirstNamed(cats, target)
    case Some(i) =>
      assert all[i] == cats[i];
    case None =>
      if target != Some(doc.name) {
        assert forall j :: 0 <= j < |all| ==> !Named(target, all[j]) by {
          forall j | 0 <= j < |all| ensures !Named(target, all[j]) {
            if j < |cats| { assert all[j] == cats[j]; }
          }
        }
      }
  }

  /** POST: the guards, the image count and the dedup lookup answer before
    * any change; then the upload, the create and the push run in a
    * transaction that is undone as a whole if any of them throws (the
    * uploaded object stays in the bucket). */
  method Post(st: Store, token: bool, svc: Config, f: Form, now: nat, faults: Faults) returns (r: Response<()>)
    modifies st
    ensures Rejection(token, faults, f, old(st.categories)).Some? ==>
      && r == Rejection(token, faults, f, old(st.categories)).value
      && st.Docs() == old(st.Docs()) && st.objects == old(st.objects)
    ensures Rejection(token, faults, f, old(st.categories)).None? && PutObject in faults ==>
      && r == Response(503, Error(faults[PutObject]))
      && st.Docs() == old(st.Docs()) && st.objects == old(st.objects)
    ensures Rejection(token, faults, f, old(st.categories)).None? && PutObject !in faults ==>
      var name := f.name.value;
      var parent := f.parentCategory.value.value;
      var file := ImageFiles(f.rest)[0];
      var created := NewCategory(old(st.nextId), name, StoredParent(parent), Some(f.properties.value.value),
                                 [ImageFor(svc, now, file)], st.loadTime);
      && st.objects == old(st.objects) + {ObjectKey(now, file.name)}
      && (created.Thrown? ==> r == Response(503, Error(created.error)) && st.Docs() == old(st.Docs()))
      && (created.Ok? && Create in faults ==> r == Response(503, Error(faults[Create])) && st.Docs() == old(st.Docs()))
      && (created.Ok? && Create !in faults && Push in faults ==>
            r == Response(503, Error(faults[Push])) && st.Docs() == old(st.Docs()))
      && (created.Ok? && Create !in faults && Push !in faults ==>
            && r == Response(201, Success)
            && st.Docs() == old(st.Docs()).(categories := Saved(old(st.categories), created.value, parent)))
  {
    var rejection := Rejection(token, faults, f, st.categories);
    if rejection.Some? {
      return rejection.value;
    }
    r := Transact(st, svc, f, now, faults);
  }

  /** The transaction: the upload, the create and the push, undone as a
    * whole if any of them throws. */
  method Transact(st: Store, svc: Config, f: Form, now: nat, faults: Faults) returns (r: Response<()>)
    requires WellFormed(f) && |ImageFiles(f.rest)| > 0
    modifies st
    ensures PutObject in faults ==>
      && r == Response(503, Error(faults[PutObject]))
      && st.Docs() == old(st.Docs()) && st.objects == old(st.objects)
    ensures PutObject !in faults ==>
      var name := f.name.value;
      var parent := f.parentCategory.value.value;
      var file := ImageFiles(f.rest)[0];
      var created := NewCategory(old(st.nextId), name, StoredParent(parent), Some(f.properties.value.value),
                                 [ImageFor(svc, now, file)], st.loadTime);
      && st.objects == old(st.objects) + {ObjectKey(now, file.name)}
      && (created.Thrown? ==> r == Response(503, Error(created.error)) && st.Docs() == old(st.Docs()))
      && (created.Ok? && Create in faults ==> r == Response(503, Error(faults[Create])) && st.Docs() == old(st.Docs()))
      && (created.Ok? && Create !in faults && Push in faults ==>
            r == Response(503, Error(faults[Push])) && st.Docs() == old(st.Docs()))
      && (created.Ok? && Create !in faults && Push !in faults ==>
            && r == Response(201, Success)
            && st.Docs() == old(st.Docs()).(categories := Saved(old(st.categories), created.value, parent)))
  {
    var name := f.name.value;
    var parentCategory := f.parentCategory.value.value;
    var properties := f.properties.value.value;
    var files := ImageFiles(f.rest);

    var snapshot := st.Docs();
    var imageLinks := SaveFilesToS3(st, svc, files, now, faults);
    if imageLinks.Thrown? {
      st.Restore(snapshot);
      return Response(503, Error(imageLinks.error));
    }
    var id := st.FreshId();
    var created := NewCategory(id, name, StoredParent(parentCategory), Some(properties), imageLinks.value.value, st.loadTime);
    if created.Thrown? {
      st.Restore(snapshot);
      return Response(503, Error(created.error));
    }
    if Create in faults {
      st.Restore(snapshot);
      return Response(503, Error(faults[Create]));
    }
    st.categories := st.categories + [created.value];
    if Push in faults {
      st.Restore(snapshot);
      return Response(503, Error(faults[Push]));
    }
    st.categories := PushChild(st.categories, ParentName(parentCategory), name);
    return Response(201, Success);
  }

  /** GET is not supported. */
  function Get(token: bool): (r: Response<()>)
    ensures r.status == (if token then 405 else 401)
  {
    if !token then Unauthorized() else NotSupported("GET")
  }
}
