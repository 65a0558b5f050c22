/**
 * The scene-picture cache: a bucket folder whose objects are named by the
 * digest of a location description. A lookup asks whether the object exists
 * and answers with its public URL; a save uploads the JPEG bytes and answers
 * with the same URL.
 */
module ImageCache {
  import opened Wrappers
  import opened Hex
  import opened CacheKey

  /** The content type every cached picture is uploaded with. */
  const JpegType := "image/jpeg"

  datatype StoredObject = StoredObject(bytes: seq<Byte>, contentType: string)

  /** The bucket's objects, by name. */
  type Objects = map<string, StoredObject>

  /** Whether the existence check reaches the storage service. */
  datatype Probe = Reachable | Unreachable

  /** Whether an upload completes. */
  datatype SaveOutcome = SaveOk | SaveThrows

  datatype StorageError = ExistsCheckFailed | UploadFailed

  /** What a lookup of `description` finds: the public URL when its object exists. */
  function Find(cfg: Config, objects: Objects, description: string): Option<string>
  {
    var name := Key(cfg, description);
    if name in objects then Some(PublicUrl(cfg.bucket, name)) else None
  }

  /** The objects after the picture for `description` is uploaded. */
  function Put(cfg: Config, objects: Objects, description: string, bytes: seq<Byte>): Objects
  {
    objects[Key(cfg, description) := StoredObject(bytes, JpegType)]
  }

  /** Every object is a JPEG named `{folder}/{32 hex digits}.jpg`. */
  ghost predicate WellFormed(cfg: Config, objects: Objects)
  {
    forall name | name in objects ::
      ParseObjectName(cfg.folder, name).Some? && objects[name].contentType == JpegType
  }

  /** A save followed by a lookup of the same description finds the URL the save returned. */
  lemma FindAfterPut(cfg: Config, objects: Objects, description: string, bytes: seq<Byte>)
    ensures Find(cfg, Put(cfg, objects, description, bytes), description)
            == Some(PublicUrl(cfg.bucket, Key(cfg, description)))
  {
  }

  /** A save changes no lookup of a description whose digest differs. */
  lemma PutKeepsOtherDescriptions(cfg: Config, objects: Objects, description: string, bytes: seq<Byte>, other: string)
    requires cfg.md5(other) != cfg.md5(description)
    ensures Find(cfg, Put(cfg, objects, description, bytes), other) == Find(cfg, objects, other)
  {
    KeysAgreeIffDigestsAgree(cfg, description, other);
  }

  /** Saving the same picture twice leaves the same objects and the same URL as saving it once. */
  lemma PutIdempotent(cfg: Config, objects: Objects, description: string, bytes: seq<Byte>)
    ensures Put(cfg, Put(cfg, objects, description, bytes), description, bytes) == Put(cfg, objects, description, bytes)
  {
  }

  class Store {
    const config: Config
    var objects: Objects

    /**
     * The bucket holds nothing but cache entries. Lookups and saves do not
     * depend on it (other objects, such as a test upload in the same folder,
     * are harmless); a save keeps it when it held before.
     */
    ghost predicate HoldsOnlyCacheEntries()
      reads this
    {
      WellFormed(config, objects)
    }

    /**
     * A handle on an existing bucket, with whatever it already holds:
     * pictures cached by earlier runs and any other objects.
     */
    constructor (bucket: string, folder: string, md5: string -> Digest, initial: Objects)
      ensures config.bucket == bucket && config.folder == folder && config.md5 == md5
      ensures objects == initial
    {
      config := Config(bucket, folder, md5);
      objects := initial;
    }

    /**
     * `get_image_from_cache`: derive the object name, ask whether it exists.
     * A miss is an answer, not an error; a failing existence check is an error
     * the caller sees. Nothing in the bucket changes.
     */
    method Lookup(description: string, probe: Probe) returns (r: Result<Option<string>, StorageError>)
      ensures probe == Unreachable ==> r == Failure(ExistsCheckFailed)
      ensures probe == Reachable ==> r.Success?
      ensures r.Success? ==> (r.value.Some? <==> Key(config, description) in objects)
      ensures r.Success? && r.value.Some? ==> r.value.value == PublicUrl(config.bucket, Key(config, description))
    {
      var name := Key(config, description);
      if probe == Unreachable {
        return Failure(ExistsCheckFailed);
      }
      if name in objects {
        return Success(Some(PublicUrl(config.bucket, name)));
      }
      return Success(None);
    }

    /**
     * `getImageFromCache`: the same lookup, except that a failing existence
     * check is caught and reported as a miss.
     */
    method LookupOrMiss(description: string, probe: Probe) returns (url: Option<string>)
      ensures url == (if probe == Reachable then Find(config, objects, description) else None)
    {
      var r := Lookup(description, probe);
      if r.Failure? {
        return None;
      }
      return r.value;
    }

    /**
     * `save_image_to_cache`: upload `bytes` as a JPEG under the derived name
     * (overwriting what is there) and answer with the object's public URL;
     * a failed upload changes nothing and is an error.
     */
    method Save(description: string, bytes: seq<Byte>, outcome: SaveOutcome) returns (r: Result<string, StorageError>)
      modifies this
      ensures old(HoldsOnlyCacheEntries()) ==> HoldsOnlyCacheEntries()
      ensures outcome == SaveOk ==>
                r == Success(PublicUrl(config.bucket, Key(config, description)))
                && objects == Put(config, old(objects), description, bytes)
      ensures outcome == SaveThrows ==> r == Failure(UploadFailed) && objects == old(objects)
    {
      var name := Key(config, description);
      if outcome == SaveThrows {
        return Failure(UploadFailed);
      }
      objects := objects[name := StoredObject(bytes, JpegType)];
      return Success(PublicUrl(config.bucket, name));
    }
  }

  /** What a later lookup sees after a save: the very URL the save answered with. */
  method SaveThenLookup(store: Store, description: string, bytes: seq<Byte>) returns (saved: string, found: Option<string>)
    modifies store
    ensures found == Some(saved)
  {
    var r := store.Save(description, bytes, SaveOk);
    saved := r.value;
    found := store.LookupOrMiss(description, Reachable);
  }
}
