/** `services/storageService.ts`: uploads to and deletions from the S3
  * bucket the images live in. */
module StorageService {
  import opened Wrappers
  import opened Text
  import opened Records
  import opened Http
  import opened Database

  /** The environment the service reads: bucket, region and the two keys. */
  datatype Config = Config(bucket: Option<string>, region: Option<string>, accessKey: Option<string>, secretKey: Option<string>)

  /** The check the routes make before building their own client. */
  predicate Complete(c: Config)
  {
    Truthy(c.region) && Truthy(c.bucket) && Truthy(c.accessKey) && Truthy(c.secretKey)
  }

  /** How a possibly undefined value prints inside a template literal. */
  function Show(s: Option<string>): string
  {
    if s.Some? then s.value else "undefined"
  }

  /** The key an upload is stored under: `${Date.now()}.${extension}`. */
  function ObjectKey(now: nat, fileName: string): string
  {
    NatToString(now) + "." + Extension(fileName)
  }

  /** A key keeps the extension of the file it was made for. */
  lemma KeyKeepsExtension(now: nat, fileName: string)
    ensures Extension(ObjectKey(now, fileName)) == Extension(fileName)
  {
    ExtensionIsLastSegment(fileName);
    ExtensionAfterDot(NatToString(now), Extension(fileName));
  }

  /** The timestamp can be read back from the key. */
  lemma KeyKeepsTime(now: nat, fileName: string)
    ensures ParseDigits(ObjectKey(now, fileName)[..|NatToString(now)|]) == now
  {
    var key := ObjectKey(now, fileName);
    var d := NatToString(now);
    assert key[..|d|] == (d + ".")[..|d|] == d;
    ParseNatToString(now);
  }

  /** The public URL of an object. */
  function PublicLink(c: Config, key: string): string
  {
    LinkPrefix(c) + key
  }

  function LinkPrefix(c: Config): string
  {
    "https://" + Show(c.bucket) + ".s3." + Show(c.region) + ".amazonaws.com/"
  }

  /** The key is the last path segment of its link, after the bucket's host. */
  lemma LinkEndsWithKey(c: Config, key: string)
    ensures var link := PublicLink(c, key);
            |link| >= |key| && link[|link| - |key|..] == key
    ensures "https://" <= PublicLink(c, key)
  {
    var link := PublicLink(c, key);
    assert link[|link| - |key|..] == key;
    assert link[..8] == LinkPrefix(c)[..8];
  }

  /** The `{Key, link}` entry an upload records. */
  function ImageFor(c: Config, now: nat, file: Upload): (img: StoredImage)
    ensures img.key == ObjectKey(now, file.name) && img.link == PublicLink(c, img.key)
  {
    var key := ObjectKey(now, file.name);
    StoredImage(key, PublicLink(c, key))
  }

  /** `saveFilesToS3`: the loop returns from its first iteration, so only
    * the first file is uploaded and recorded; no file gives `undefined`. */
  method SaveFilesToS3(st: Store, c: Config, files: seq<Upload>, now: nat, faults: Faults)
    returns (r: Result<Option<seq<StoredImage>>>)
    modifies st`objects
    ensures |files| == 0 ==> r == Ok(None) && st.objects == old(st.objects)
    ensures |files| > 0 && PutObject in faults ==> r == Thrown(faults[PutObject]) && st.objects == old(st.objects)
    ensures |files| > 0 && PutObject !in faults ==>
      && r == Ok(Some([ImageFor(c, now, files[0])]))
      && st.objects == old(st.objects) + {ObjectKey(now, files[0].name)}
  {
    for i := 0 to |files|
      invariant i == 0
    {
      var key := ObjectKey(now, files[i].name);
      if PutObject in faults {
        return Thrown(faults[PutObject]);
      }
      st.objects := st.objects + {key};
      var imageLinks := [StoredImage(key, PublicLink(c, key))];
      return Ok(Some(imageLinks));
    }
    return Ok(None);
  }

  /** `deleteS3Item`: removes one object; S3 accepts a key it does not hold. */
  method DeleteS3Item(st: Store, key: string, faults: Faults) returns (r: Result<()>)
    modifies st`objects
    ensures DeleteObject in faults ==> r == Thrown(faults[DeleteObject]) && st.objects == old(st.objects)
    ensures DeleteObject !in faults ==> r == Ok(()) && st.objects == old(st.objects) - {key}
  {
    if DeleteObject in faults {
      return Thrown(faults[DeleteObject]);
    }
    st.objects := st.objects - {key};
    return Ok(());
  }

  /** `deleteS3Items`: removes a batch of objects in one request. */
  method DeleteS3Items(st: Store, keys: seq<string>, faults: Faults) returns (r: Result<()>)
    modifies st`objects
    ensures DeleteObjects in faults ==> r == Thrown(faults[DeleteObjects]) && st.objects == old(st.objects)
    ensures DeleteObjects !in faults ==>
      && r == Ok(())
      && st.objects == old(st.objects) - set k | k in keys
  {
    if DeleteObjects in faults {
      return Thrown(faults[DeleteObjects]);
    }
    st.objects := st.objects - set k | k in keys;
    return Ok(());
  }
}
