/**
 * Where a scene picture lives in the bucket. Both variants name the object
 * `{folder}/{md5hex(description)}.jpg`, where `md5hex` is the lowercase
 * hexadecimal MD5 digest (RFC 1321) of the UTF-8 bytes of the location
 * description, and serve it at the bucket's public URL.
 */
module CacheKey {
  import opened Wrappers
  import opened Hex

  /** A 128-bit MD5 digest: sixteen octets. */
  type Digest = d: seq<Byte> | |d| == 16 witness [0, 0, 0, 0, 0, 0, 0, 0, 0, 0, 0, 0, 0, 0, 0, 0]

  /**
   * The deployment settings the cache reads: the bucket name, the folder
   * taken from the GCS_FOLDER_NAME environment variable, and MD5 applied to
   * the UTF-8 encoding of a string (an opaque hash function here).
   */
  datatype Config = Config(bucket: string, folder: string, md5: string -> Digest)

  /** Length of the hexadecimal digest inside an object name. */
  const DigestTextLength := 32

  /** The object name for a digest: `folder + "/" + 32 hex digits + ".jpg"`. */
  function ObjectName(folder: string, digest: Digest): (name: string)
    ensures |name| == |folder| + 1 + DigestTextLength + 4
    ensures name[..|folder| + 1] == folder + "/"
    ensures name[|folder| + 1 + DigestTextLength..] == ".jpg"
    ensures forall i | |folder| + 1 <= i < |folder| + 1 + DigestTextLength :: IsHexDigit(name[i])
  {
    folder + "/" + Encode(digest) + ".jpg"
  }

  /** The digest an object name under `folder` was made from, or None for any other name. */
  function ParseObjectName(folder: string, name: string): (r: Option<Digest>)
  {
    var start := |folder| + 1;
    if |name| == start + DigestTextLength + 4 && name[..start] == folder + "/"
       && name[start + DigestTextLength..] == ".jpg"
    then
      var digest := Decode(name[start..start + DigestTextLength]);
      if digest.Some? then Some(digest.value) else None
    else None
  }

  /** Reading a name back gives the digest it was built from. */
  lemma ParseObjectNameRoundTrip(folder: string, digest: Digest)
    ensures ParseObjectName(folder, ObjectName(folder, digest)) == Some(digest)
  {
    var name := ObjectName(folder, digest);
    var start := |folder| + 1;
    assert name[start..start + DigestTextLength] == Encode(digest);
    DecodeEncode(digest);
  }

  /** Every name that reads back is exactly the name of its digest. */
  lemma ObjectNameOfParse(folder: string, name: string)
    requires ParseObjectName(folder, name).Some?
    ensures ObjectName(folder, ParseObjectName(folder, name).value) == name
  {
    var start := |folder| + 1;
    var middle := name[start..start + DigestTextLength];
    EncodeDecode(middle);
    assert name == name[..start] + middle + name[start + DigestTextLength..];
  }

  /** Two names under one folder agree exactly when their digests agree. */
  lemma ObjectNameInjective(folder: string, d1: Digest, d2: Digest)
    ensures ObjectName(folder, d1) == ObjectName(folder, d2) <==> d1 == d2
  {
    if ObjectName(folder, d1) == ObjectName(folder, d2) {
      ParseObjectNameRoundTrip(folder, d1);
      ParseObjectNameRoundTrip(folder, d2);
    }
  }

  /**
   * The object name the cache derives from a location description; lookup
   * and save both use it, and it depends on nothing but the folder and the
   * description's digest.
   */
  function Key(cfg: Config, description: string): (name: string)
    ensures ParseObjectName(cfg.folder, name) == Some(cfg.md5(description))
  {
    ParseObjectNameRoundTrip(cfg.folder, cfg.md5(description));
    ObjectName(cfg.folder, cfg.md5(description))
  }

  /** Two descriptions share an object exactly when their MD5 digests collide. */
  lemma KeysAgreeIffDigestsAgree(cfg: Config, d1: string, d2: string)
    ensures Key(cfg, d1) == Key(cfg, d2) <==> cfg.md5(d1) == cfg.md5(d2)
  {
    ObjectNameInjective(cfg.folder, cfg.md5(d1), cfg.md5(d2));
  }

  /** The storage service's public endpoint. */
  const PublicHost := "https://storage.googleapis.com/"

  /** The public URL of an object: the endpoint, the bucket, then the object name. */
  function PublicUrl(bucket: string, name: string): (url: string)
    ensures |url| > |PublicHost| && url[..|PublicHost|] == PublicHost
    ensures |url| > |name| && url[|url| - |name|..] == name
  {
    PublicHost + bucket + "/" + name
  }

  /** Within one bucket, distinct objects have distinct URLs. */
  lemma PublicUrlInjective(bucket: string, n1: string, n2: string)
    ensures PublicUrl(bucket, n1) == PublicUrl(bucket, n2) <==> n1 == n2
  {
    var prefix := PublicHost + bucket + "/";
    if PublicUrl(bucket, n1) == PublicUrl(bucket, n2) {
      assert n1 == PublicUrl(bucket, n1)[|prefix|..];
      assert n2 == PublicUrl(bucket, n2)[|prefix|..];
    }
  }
}
