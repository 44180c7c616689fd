/** The `childCategories` bookkeeping the category routes do with `$push`
  * and `$pull` on the first category that carries a given name. A target
  * name of `undefined` (a parent sent as `{}`) matches no category. */
module CategoryTree {
  import opened Wrappers
  import opened Records
  import opened Collections

  predicate Named(target: Option<string>, c: Category)
  {
    target == Some(c.name)
  }

  /** The position `findOne({name: target})` and `updateOne({name: target}, …)` act on. */
  function FirstNamed(cats: seq<Category>, target: Option<string>): (r: Option<nat>)
    ensures r.Some? ==> r.value < |cats| && Named(target, cats[r.value])
                        && forall j :: 0 <= j < r.value ==> !Named(target, cats[j])
    ensures r.None? <==> forall j :: 0 <= j < |cats| ==> !Named(target, cats[j])
  {
    FirstIndex(cats, c => Named(target, c))
  }

  /** `findOne({name})`. */
  function FindByName(cats: seq<Category>, name: string): (r: Option<Category>)
    ensures r.Some? <==> FirstNamed(cats, Some(name)).Some?
    ensures r.Some? ==> r.value == cats[FirstNamed(cats, Some(name)).value] && r.value.name == name
  {
    match FirstNamed(cats, Some(name))
    case None => None
    case Some(i) => Some(cats[i])
  }

  predicate SameNames(a: seq<Category>, b: seq<Category>)
  {
    |a| == |b| && forall k :: 0 <= k < |a| ==> a[k].name == b[k].name
  }

  /** Updates that keep every name keep every lookup by name. */
  lemma FirstNamedBySameNames(a: seq<Category>, b: seq<Category>, target: Option<string>)
    requires SameNames(a, b)
    ensures FirstNamed(a, target) == FirstNamed(b, target)
  {
    assert forall k :: 0 <= k < |a| ==> (Named(target, a[k]) <==> Named(target, b[k]));
  }

  /** `updateOne({name: target}, {$push: {childCategories: child}})`. */
  function PushChild(cats: seq<Category>, target: Option<string>, child: string): (r: seq<Category>)
    ensures SameNames(r, cats)
    ensures FirstNamed(cats, target).None? ==> r == cats
    ensures FirstNamed(cats, target).Some? ==>
      var i := FirstNamed(cats, target).value;
      && r[i] == cats[i].(childCategories := cats[i].childCategories + [child])
      && forall k :: 0 <= k < |cats| && k != i ==> r[k] == cats[k]
  {
    UpdateFirst(cats, c => Named(target, c), (c: Category) => c.(childCategories := c.childCategories + [child]))
  }

  /** The edit route's `$push`, which also stamps `updated`. */
  function PushChildAt(cats: seq<Category>, target: Option<string>, child: string, now: nat): (r: seq<Category>)
    ensures SameNames(r, cats)
    ensures FirstNamed(cats, target).None? ==> r == cats
    ensures FirstNamed(cats, target).Some? ==>
      var i := FirstNamed(cats, target).value;
      && r[i] == cats[i].(childCategories := cats[i].childCategories + [child], updated := now)
      && forall k :: 0 <= k < |cats| && k != i ==> r[k] == cats[k]
  {
    UpdateFirst(cats, c => Named(target, c),
      (c: Category) => c.(childCategories := c.childCategories + [child], updated := now))
  }

  /** `updateOne({name: target}, {$pull: {childCategories: child}, updated})`. */
  function PullChild(cats: seq<Category>, target: Option<string>, child: string, now: nat): (r: seq<Category>)
    ensures SameNames(r, cats)
    ensures FirstNamed(cats, target).None? ==> r == cats
    ensures FirstNamed(cats, target).Some? ==>
      var i := FirstNamed(cats, target).value;
      && r[i] == cats[i].(childCategories := PullAll(cats[i].childCategories, child), updated := now)
      && child !in r[i].childCategories
      && forall k :: 0 <= k < |cats| && k != i ==> r[k] == cats[k]
  {
    UpdateFirst(cats, c => Named(target, c),
      (c: Category) => c.(childCategories := PullAll(c.childCategories, child), updated := now))
  }

  /** Pulling a child and pushing it again onto the same category leaves it
    * listed exactly once, as the last child. */
  lemma {:induction false} RepushLeavesOneAtEnd(children: seq<string>, child: string)
    ensures var r := PullAll(children, child) + [child];
      Count(r, child) == 1 && r[|r| - 1] == child
  {
    var pulled := PullAll(children, child);
    CountAppend(pulled, [child], child);
    CountZero(pulled, child);
    assert Count([child], child) == 1 by {
      assert [child][1..] == [];
    }
  }
}
