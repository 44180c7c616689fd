/** Pieces the admin form pages share: the image validator's answer,
  * removal of one pending image, the `image<i>` form fields, edits of a
  * category's property list and the clamp on numeric inputs. */
module FormInputs {
  import opened Wrappers
  import opened Text
  import opened Records
  import opened Http
  import opened Collections

  /** What `validationService.validateImages` returns: the accepted files
    * or an error text. Its checks are not part of this model. */
  datatype Validation = Files(files: seq<Upload>) | Rejected(message: string)

  /** `[...s.slice(0, i), ...s.slice(i + 1)]`: exactly element `i` goes. */
  function RemoveAt<T>(s: seq<T>, i: nat): (r: seq<T>)
    requires i < |s|
    ensures |r| == |s| - 1
    ensures forall k :: 0 <= k < i ==> r[k] == s[k]
    ensures forall k :: i <= k < |r| ==> r[k] == s[k + 1]
    ensures multiset(r) + multiset{s[i]} == multiset(s)
  {
    assert s == s[..i] + [s[i]] + s[i + 1..];
    s[..i] + s[i + 1..]
  }

  /** A file field of the submitted form data. */
  datatype Field = Field(key: string, file: Upload)

  function ImageKey(i: nat): string
  {
    "image" + NatToString(i)
  }

  /** `files.forEach((file, index) => postData.append('image' + index, file))`. */
  method ImageFields(files: seq<Upload>) returns (fields: seq<Field>)
    ensures |fields| == |files|
    ensures forall i :: 0 <= i < |files| ==> fields[i] == Field(ImageKey(i), files[i])
  {
    fields := [];
    var index := 0;
    while index < |files|
      invariant 0 <= index <= |files|
      invariant |fields| == index
      invariant forall i :: 0 <= i < index ==> fields[i] == Field(ImageKey(i), files[i])
    {
      fields := fields + [Field(ImageKey(index), files[index])];
      index := index + 1;
    }
  }

  /** No two image fields share a key, so the route sees every file. */
  lemma ImageKeysDistinct(i: nat, j: nat)
    requires i != j
    ensures ImageKey(i) != ImageKey(j)
  {
    if ImageKey(i) == ImageKey(j) {
      assert ImageKey(i)[5..] == NatToString(i);
      assert ImageKey(j)[5..] == NatToString(j);
      ParseNatToString(i);
      ParseNatToString(j);
    }
  }

  /** The uploads the route finds among the entries the page sends. */
  function FileEntries(files: seq<Upload>): (entries: seq<Entry>)
    ensures |entries| == |files|
    ensures forall i :: 0 <= i < |files| ==> entries[i] == FileEntry(files[i])
  {
    seq(|files|, i requires 0 <= i < |files| => FileEntry(files[i]))
  }

  /** The route's image filter finds exactly the pending files among the
    * entries the page sends, in order, when each file's type names an
    * image and the other entries are text. */
  lemma {:induction false} ImageFilesOfFileEntries(files: seq<Upload>, texts: seq<Entry>)
    requires forall i :: 0 <= i < |files| ==> Text.Contains(files[i].mimeType, "image")
    requires forall i :: 0 <= i < |texts| ==> texts[i].TextEntry?
    ensures ImageFiles(FileEntries(files) + texts) == files
  {
    if |files| == 0 {
      assert FileEntries(files) + texts == texts;
      NoImagesAmongTexts(texts);
    } else {
      var entries := FileEntries(files) + texts;
      assert entries[0] == FileEntry(files[0]);
      assert entries[1..] == FileEntries(files[1..]) + texts;
      ImageFilesOfFileEntries(files[1..], texts);
      assert files == [files[0]] + files[1..];
    }
  }

  lemma {:induction false} NoImagesAmongTexts(texts: seq<Entry>)
    requires forall i :: 0 <= i < |texts| ==> texts[i].TextEntry?
    ensures ImageFiles(texts) == []
  {
    if |texts| > 0 {
      NoImagesAmongTexts(texts[1..]);
    }
  }

  /** The first choice of the parent select. */
  const NoParent := "No Parent Category"

  /** The `parentCategory` field: `{}` for no parent, otherwise the first
    * fetched category with the chosen name (the text 'undefined' if there
    * is none). */
  function ParentField(categories: seq<Category>, parent: string): (p: Json<Parent>)
    ensures parent == NoParent ==> p == Json(NoKeys)
    ensures parent != NoParent && p.Json? ==> p.value.Snapshot? && p.value.doc in categories && p.value.doc.name == parent
    ensures parent != NoParent ==> (p == UndefinedText <==> forall j :: 0 <= j < |categories| ==> categories[j].name != parent)
  {
    if parent == NoParent then Json(NoKeys)
    else match FindFirst(categories, (c: Category) => c.name == parent)
      case Some(c) => Json(Snapshot(c))
      case None => UndefinedText
  }

  /** What a submit does: nothing is sent, with a notice, or a form is sent. */
  datatype Submission<F> = Refused(notice: string) | Sent(fields: seq<Field>, form: F)

  /** "Add new property": a blank property at the end. The edit page
    * marks it `custom: false`, the new page leaves `custom` out. */
  function AddProperty(props: seq<Property>, custom: Option<bool>): (r: seq<Property>)
    ensures |r| == |props| + 1 && r[..|props|] == props
    ensures r[|props|] == Property("", "", custom)
  {
    props + [Property("", "", custom)]
  }

  /** "Remove last property": the last one goes; an empty list stays. */
  function RemoveLastProperty(props: seq<Property>): (r: seq<Property>)
    ensures |props| > 0 ==> |r| == |props| - 1
    ensures |props| == 0 ==> r == []
    ensures r == props[..|r|]
  {
    if |props| > 0 then props[..|props| - 1] else props
  }

  /** Removing undoes adding. */
  lemma RemoveUndoesAdd(props: seq<Property>, custom: Option<bool>)
    ensures RemoveLastProperty(AddProperty(props, custom)) == props
  {
  }

  /** Typing a property's name rebuilds element `i` as `{name, value}`:
    * its value stays, its `custom` flag is dropped, the rest is untouched. */
  function SetPropertyName(props: seq<Property>, i: nat, name: string): (r: seq<Property>)
    requires i < |props|
    ensures |r| == |props| && r[i] == Property(name, props[i].value, None)
    ensures forall k :: 0 <= k < |r| && k != i ==> r[k] == props[k]
  {
    props[..i] + [Property(name, props[i].value, None)] + props[i + 1..]
  }

  /** Typing a property's value, likewise. */
  function SetPropertyValue(props: seq<Property>, i: nat, value: string): (r: seq<Property>)
    requires i < |props|
    ensures |r| == |props| && r[i] == Property(props[i].name, value, None)
    ensures forall k :: 0 <= k < |r| && k != i ==> r[k] == props[k]
  {
    props[..i] + [Property(props[i].name, value, None)] + props[i + 1..]
  }

  /** Name and value edits of one property commute, and together give a
    * plain `{name, value}`. */
  lemma EditsCommute(props: seq<Property>, i: nat, name: string, value: string)
    requires i < |props|
    ensures SetPropertyValue(SetPropertyName(props, i, name), i, value)
         == SetPropertyName(SetPropertyValue(props, i, value), i, name)
    ensures SetPropertyValue(SetPropertyName(props, i, name), i, value)[i] == Property(name, value, None)
  {
  }

  /** A numeric input's change handler: a parsed value in `[lo, hi]` is
    * kept, `NaN` (`None`) becomes `nan`, and anything else puts back the
    * value held in state. */
  function ClampInput(previous: int, parsed: Option<int>, lo: int, hi: int, nan: int): (v: int)
    ensures parsed.Some? && lo <= parsed.value <= hi ==> v == parsed.value
    ensures parsed.None? ==> v == nan
    ensures parsed.Some? && !(lo <= parsed.value <= hi) ==> v == previous
  {
    if parsed.Some? && parsed.value >= lo && parsed.value <= hi then parsed.value
    else if parsed.None? then nan
    else previous
  }

  /** When the stored value and the `NaN` value are in range, the input
    * always ends in range. */
  lemma ClampStaysInRange(previous: int, parsed: Option<int>, lo: int, hi: int, nan: int)
    requires lo <= previous <= hi && lo <= nan <= hi
    ensures lo <= ClampInput(previous, parsed, lo, hi, nan) <= hi
  {
  }
}
