/** The upload loop that `api/categories/edit` and `api/products/save`
  * write inline instead of calling the storage service: every file is
  * uploaded and recorded, each under the time of its own upload. */
module InlineUpload {
  import opened Wrappers
  import opened Text
  import opened Records
  import opened Http
  import opened Database
  import opened StorageService

  /** The `{Key, link}` entries of `files` uploaded at `times`. */
  function ImagesFor(c: Config, files: seq<Upload>, times: seq<nat>): seq<StoredImage>
    requires |times| == |files|
  {
    if |files| == 0 then []
    else ImagesFor(c, files[..|files| - 1], times[..|times| - 1]) + [ImageFor(c, times[|times| - 1], files[|files| - 1])]
  }

  /** The object keys of a list of stored images. */
  function KeysOf(images: seq<StoredImage>): set<string>
  {
    if |images| == 0 then {} else KeysOf(images[..|images| - 1]) + {images[|images| - 1].key}
  }

  /** One entry per file, in order. */
  lemma {:induction false} ImagesForFiles(c: Config, files: seq<Upload>, times: seq<nat>)
    requires |times| == |files|
    ensures |ImagesFor(c, files, times)| == |files|
    ensures forall i :: 0 <= i < |files| ==> ImagesFor(c, files, times)[i] == ImageFor(c, times[i], files[i])
  {
    if |files| > 0 {
      var n := |files| - 1;
      ImagesForFiles(c, files[..n], times[..n]);
      forall i | 0 <= i < n
        ensures ImagesFor(c, files, times)[i] == ImageFor(c, times[i], files[i])
      {
        assert files[..n][i] == files[i] && times[..n][i] == times[i];
      }
    }
  }

  /** Every recorded key keeps the extension of its file. */
  lemma ImagesKeepExtensions(c: Config, files: seq<Upload>, times: seq<nat>)
    requires |times| == |files|
    ensures |ImagesFor(c, files, times)| == |files|
    ensures forall i :: 0 <= i < |files| ==>
      Extension(ImagesFor(c, files, times)[i].key) == Extension(files[i].name)
  {
    ImagesForFiles(c, files, times);
    forall i | 0 <= i < |files|
      ensures Extension(ImagesFor(c, files, times)[i].key) == Extension(files[i].name)
    {
      KeyKeepsExtension(times[i], files[i].name);
    }
  }

  /** One more file adds its entry and its key. */
  lemma ImagesForStep(c: Config, files: seq<Upload>, times: seq<nat>, i: nat)
    requires |times| == |files| && i < |files|
    ensures ImagesFor(c, files[..i + 1], times[..i + 1]) == ImagesFor(c, files[..i], times[..i]) + [ImageFor(c, times[i], files[i])]
    ensures KeysOf(ImagesFor(c, files[..i + 1], times[..i + 1])) == KeysOf(ImagesFor(c, files[..i], times[..i])) + {ImageFor(c, times[i], files[i]).key}
  {
    assert files[..i + 1][..i] == files[..i] && times[..i + 1][..i] == times[..i];
  }

  /** Whether the loop throws: the upload of file `failAt` fails with the
    * `PutObject` fault, after the files before it are stored. */
  predicate UploadFails(files: seq<Upload>, faults: Faults, failAt: nat)
  {
    PutObject in faults && failAt < |files|
  }

  /** The loop. A throw leaves the objects of the files before `failAt` in
    * the bucket; otherwise every file is stored and recorded. */
  method UploadEach(st: Store, c: Config, files: seq<Upload>, times: seq<nat>, faults: Faults, failAt: nat)
    returns (r: Result<seq<StoredImage>>)
    requires |times| == |files|
    modifies st`objects
    ensures UploadFails(files, faults, failAt) ==>
      && r == Thrown(faults[PutObject])
      && st.objects == old(st.objects) + KeysOf(ImagesFor(c, files[..failAt], times[..failAt]))
    ensures !UploadFails(files, faults, failAt) ==>
      r == Ok(ImagesFor(c, files, times)) && st.objects == old(st.objects) + KeysOf(ImagesFor(c, files, times))
  {
    // The uploads that succeed: all of them, or those before the one that throws.
    var stored := if UploadFails(files, faults, failAt) then failAt else |files|;
    var imageLinks: seq<StoredImage> := [];
    var i := 0;
    while i < stored
      invariant 0 <= i <= stored
      invariant imageLinks == ImagesFor(c, files[..i], times[..i])
      invariant st.objects == old(st.objects) + KeysOf(ImagesFor(c, files[..i], times[..i]))
    {
      ImagesForStep(c, files, times, i);
      st.objects := st.objects + {ImageFor(c, times[i], files[i]).key};
      imageLinks := imageLinks + [ImageFor(c, times[i], files[i])];
      i := i + 1;
    }
    if stored < |files| {
      return Thrown(faults[PutObject]);
    }
    assert files[..i] == files && times[..i] == times;
    return Ok(imageLinks);
  }
}
