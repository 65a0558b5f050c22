/**
 * The FastAPI variant (main.py): what `generate_story_segment` does once the
 * text model has answered, and the null pass-through of
 * `generate_character_details_generic`.
 */
module StorySegmentPy {
  import opened Wrappers
  import opened Hex
  import opened CacheKey
  import opened ImageCache
  import opened Story

  /**
   * The outcome of one `/generate-story-segment` request, given the bucket
   * before it and the answers of the text model, the existence check, the
   * image model and the upload.
   */
  function Segment(cfg: Config, objects: Objects, text: TextOutcome<StoryResponse>,
                   probe: Probe, image: ImageOutcome, save: SaveOutcome): (r: Run<StoryResponse>)
    // a returned segment is the parsed one with zero or one picture of its own location
    ensures HasPayload(r.reply) ==>
              text.Parsed? && SameSegment(r.reply.response.value, text.value)
              && ImagesFitLocation(r.reply.response.value)
    // the null payload is the "try again" answer for exactly the unusable texts
    ensures r.reply == Payload(None) <==> UnusableText(text)
    // status 500 only when the call raised, `response.parsed` was None, or the existence check raised
    ensures r.reply.InternalError? <==>
              text.CallFails? || text.ParsedNull? || (WantsPicture(text) && probe == Unreachable)
    // a picture's failure never voids a parsed segment
    ensures text.Parsed? && (probe == Reachable || !text.value.storyState.newLocation) ==> HasPayload(r.reply)
    // a picture is only attached to a new location, and its object is in the bucket afterwards
    ensures HasPayload(r.reply) && r.reply.response.value.storyImages != [] ==>
              var key := Key(cfg, text.value.storyState.locationDescription);
              text.value.storyState.newLocation && key in r.objects
              && r.reply.response.value.storyImages[0].url == PublicUrl(cfg.bucket, key)
    // the bucket changes only by one upload after a miss and a generation with bytes
    ensures r.objects != objects ==>
              WantsPicture(text) && probe == Reachable && image.Bytes? && save == SaveOk
              && Find(cfg, objects, text.value.storyState.locationDescription).None?
              && r.objects == Put(cfg, objects, text.value.storyState.locationDescription, image.bytes)
    // the image model is only asked after a miss, and uploads only go to the description's key
    ensures forall c | c in r.calls :: c.ImageModel? ==>
              WantsPicture(text) && probe == Reachable
              && Find(cfg, objects, text.value.storyState.locationDescription).None?
    ensures forall c | c in r.calls :: c.CacheUpload? ==>
              text.Parsed? && image.Bytes? && c.name == Key(cfg, text.value.storyState.locationDescription)
  {
    match text
    case CallFails => Run(InternalError, objects, [TextModel])
    case NoResponse => Run(Payload(None), objects, [TextModel])
    case EmptyText => Run(Payload(None), objects, [TextModel])
    case Unparsable => Run(Payload(None), objects, [TextModel])
    case ParsedNull => Run(InternalError, objects, [TextModel])
    case Parsed(s) =>
      var p := PictureStep(cfg, objects, s, probe, image, save);
      assert forall c | c in [TextModel] + p.calls :: c == TextModel || c in p.calls;
      Run(p.reply, p.objects, [TextModel] + p.calls)
  }

  /**
   * What happens to a parsed segment: on a new location, the lookup, and on
   * a miss the generation and upload; the calls are those made after the
   * text model's.
   */
  function PictureStep(cfg: Config, objects: Objects, s: StoryResponse,
                       probe: Probe, image: ImageOutcome, save: SaveOutcome): (r: Run<StoryResponse>)
    // only a raising existence check voids the segment
    ensures r.reply.InternalError? <==> s.storyState.newLocation && probe == Unreachable
    ensures !r.reply.InternalError? ==>
              HasPayload(r.reply) && SameSegment(r.reply.response.value, s)
              && ImagesFitLocation(r.reply.response.value)
    // a picture is only attached to a new location, and its object is in the bucket afterwards
    ensures HasPayload(r.reply) && r.reply.response.value.storyImages != [] ==>
              var key := Key(cfg, s.storyState.locationDescription);
              s.storyState.newLocation && key in r.objects
              && r.reply.response.value.storyImages[0].url == PublicUrl(cfg.bucket, key)
    // the bucket changes only by one upload after a miss and a generation with bytes
    ensures r.objects != objects ==>
              s.storyState.newLocation && probe == Reachable && image.Bytes? && save == SaveOk
              && Find(cfg, objects, s.storyState.locationDescription).None?
              && r.objects == Put(cfg, objects, s.storyState.locationDescription, image.bytes)
    // the image model is only asked after a miss, and uploads only go to the description's key
    ensures forall c | c in r.calls :: c.ImageModel? ==>
              s.storyState.newLocation && probe == Reachable
              && Find(cfg, objects, s.storyState.locationDescription).None?
    ensures forall c | c in r.calls :: c.CacheUpload? ==>
              image.Bytes? && c.name == Key(cfg, s.storyState.locationDescription)
  {
    var description := s.storyState.locationDescription;
    var key := Key(cfg, description);
    if !s.storyState.newLocation then
      Run(Payload(Some(Unpictured(s))), objects, [])
    else if probe == Unreachable then
      Run(InternalError, objects, [CacheExists(key)])
    else if key in objects then
      Run(Payload(Some(Pictured(s, PublicUrl(cfg.bucket, key)))), objects, [CacheExists(key)])
    else
      var generated := [CacheExists(key), ImageModel(description)];
      assert probe == Reachable && Find(cfg, objects, description).None?;
      if !image.Bytes? then
        Run(Payload(Some(Unpictured(s))), objects, generated)
      else if save == SaveOk then
        Run(Payload(Some(Pictured(s, PublicUrl(cfg.bucket, key)))),
            Put(cfg, objects, description, image.bytes), generated + [CacheUpload(key)])
      else
        Run(Payload(Some(Unpictured(s))), objects, generated + [CacheUpload(key)])
  }

  /**
   * `generate_story_segment` from the point where the text model has
   * answered: validate and parse, then attach the location's picture.
   */
  method GenerateStorySegment(cache: Store, text: TextOutcome<StoryResponse>,
                              probe: Probe, image: ImageOutcome, save: SaveOutcome)
    returns (reply: Reply<StoryResponse>, calls: seq<ExternalCall>)
    modifies cache
    ensures old(cache.HoldsOnlyCacheEntries()) ==> cache.HoldsOnlyCacheEntries()
    ensures Segment(cache.config, old(cache.objects), text, probe, image, save) == Run(reply, cache.objects, calls)
  {
    calls := [TextModel];
    match text {
      case CallFails => return InternalError, calls;
      case NoResponse => return Payload(None), calls;
      case EmptyText => return Payload(None), calls;
      case Unparsable => return Payload(None), calls;
      case ParsedNull => return InternalError, calls;
      case Parsed(storyData) =>
        var pictureCalls;
        reply, pictureCalls := AttachPicture(cache, storyData, probe, image, save);
        calls := calls + pictureCalls;
    }
  }

  /**
   * The picture part of `generate_story_segment`: on a new location look
   * the picture up, generate it on a miss and upload it, assigning the
   * segment's picture list on every branch.
   */
  method AttachPicture(cache: Store, storyData: StoryResponse,
                       probe: Probe, image: ImageOutcome, save: SaveOutcome)
    returns (reply: Reply<StoryResponse>, calls: seq<ExternalCall>)
    modifies cache
    ensures old(cache.HoldsOnlyCacheEntries()) ==> cache.HoldsOnlyCacheEntries()
    ensures PictureStep(cache.config, old(cache.objects), storyData, probe, image, save) == Run(reply, cache.objects, calls)
  {
    var story := storyData;
    var description := story.storyState.locationDescription;
    calls := [];
    if story.storyState.newLocation {
      calls := calls + [CacheExists(Key(cache.config, description))];
      var found := cache.Lookup(description, probe);
      if found.Failure? {
        return InternalError, calls;
      }
      var imageUrl := found.value;
      if imageUrl.None? || imageUrl.value == "" {
        calls := calls + [ImageModel(description)];
        if image.Bytes? {
          calls := calls + [CacheUpload(Key(cache.config, description))];
          var saved := cache.Save(description, image.bytes, save);
          if saved.Failure? {
            story := story.(storyImages := []);
          } else {
            imageUrl := Some(saved.value);
            story := story.(storyImages := [StoryImage(saved.value, description)]);
          }
        } else {
          story := story.(storyImages := []);
        }
      } else {
        story := story.(storyImages := [StoryImage(imageUrl.value, description)]);
      }
    } else {
      story := story.(storyImages := []);
    }
    return Payload(Some(story)), calls;
  }

  /** An old location: no picture, no image model, no change to the bucket. */
  lemma OldLocationHasNoPicture(cfg: Config, objects: Objects, s: StoryResponse,
                                probe: Probe, image: ImageOutcome, save: SaveOutcome)
    requires !s.storyState.newLocation
    ensures var r := Segment(cfg, objects, Parsed(s), probe, image, save);
            r.reply == Payload(Some(Unpictured(s))) && r.objects == objects && r.calls == [TextModel]
  {
  }

  /** A hit: one picture at the cached URL, neither generation nor upload. */
  lemma CacheHitServesCachedUrl(cfg: Config, objects: Objects, s: StoryResponse,
                                image: ImageOutcome, save: SaveOutcome)
    requires s.storyState.newLocation
    requires Find(cfg, objects, s.storyState.locationDescription).Some?
    ensures var r := Segment(cfg, objects, Parsed(s), Reachable, image, save);
            var url := Find(cfg, objects, s.storyState.locationDescription).value;
            r.reply == Payload(Some(s.(storyImages := [StoryImage(url, s.storyState.locationDescription)])))
            && r.objects == objects
            && r.calls == [TextModel, CacheExists(Key(cfg, s.storyState.locationDescription))]
  {
  }

  /**
   * A miss with bytes and a completed upload: exactly one upload, keyed by
   * the location description, and one picture at the URL a later lookup finds.
   */
  lemma MissGeneratesAndStoresOnce(cfg: Config, objects: Objects, s: StoryResponse, bytes: seq<Byte>)
    requires s.storyState.newLocation
    requires Find(cfg, objects, s.storyState.locationDescription).None?
    ensures var r := Segment(cfg, objects, Parsed(s), Reachable, Bytes(bytes), SaveOk);
            var description := s.storyState.locationDescription;
            var key := Key(cfg, description);
            r.objects == Put(cfg, objects, description, bytes)
            && r.calls == [TextModel, CacheExists(key), ImageModel(description), CacheUpload(key)]
            && r.reply == Payload(Some(s.(storyImages := [StoryImage(PublicUrl(cfg.bucket, key), description)])))
            && Find(cfg, r.objects, description) == Some(PublicUrl(cfg.bucket, key))
  {
    FindAfterPut(cfg, objects, s.storyState.locationDescription, bytes);
  }

  /** A miss whose picture is filtered, has no bytes, raises or fails to upload: the segment without a picture. */
  lemma MissWithoutPictureDegrades(cfg: Config, objects: Objects, s: StoryResponse,
                                   image: ImageOutcome, save: SaveOutcome)
    requires s.storyState.newLocation
    requires Find(cfg, objects, s.storyState.locationDescription).None?
    requires !image.Bytes? || save == SaveThrows
    ensures var r := Segment(cfg, objects, Parsed(s), Reachable, image, save);
            r.reply == Payload(Some(Unpictured(s))) && r.objects == objects
  {
  }

  /** A second segment at a location the first one pictured is a cache hit on the same URL. */
  lemma RepeatedLocationIsHit(cfg: Config, objects: Objects, s1: StoryResponse, s2: StoryResponse,
                              bytes: seq<Byte>, image2: ImageOutcome, save2: SaveOutcome)
    requires s1.storyState.newLocation && s2.storyState.newLocation
    requires s1.storyState.locationDescription == s2.storyState.locationDescription
    ensures var r1 := Segment(cfg, objects, Parsed(s1), Reachable, Bytes(bytes), SaveOk);
            var r2 := Segment(cfg, r1.objects, Parsed(s2), Reachable, image2, save2);
            HasPayload(r1.reply) && HasPayload(r2.reply)
            && r2.reply.response.value.storyImages == r1.reply.response.value.storyImages
            && r2.objects == r1.objects
            && (forall c | c in r2.calls :: !c.ImageModel? && !c.CacheUpload?)
  {
    var description := s1.storyState.locationDescription;
    if Find(cfg, objects, description).None? {
      MissGeneratesAndStoresOnce(cfg, objects, s1, bytes);
    } else {
      CacheHitServesCachedUrl(cfg, objects, s1, Bytes(bytes), SaveOk);
    }
    var r1 := Segment(cfg, objects, Parsed(s1), Reachable, Bytes(bytes), SaveOk);
    CacheHitServesCachedUrl(cfg, r1.objects, s2, image2, save2);
  }

  /** No request changes what a lookup finds for a description with a different digest. */
  lemma SegmentKeepsOtherLocations(cfg: Config, objects: Objects, text: TextOutcome<StoryResponse>,
                                   probe: Probe, image: ImageOutcome, save: SaveOutcome, other: string)
    requires text.Parsed? ==> cfg.md5(other) != cfg.md5(text.value.storyState.locationDescription)
    ensures Find(cfg, Segment(cfg, objects, text, probe, image, save).objects, other) == Find(cfg, objects, other)
  {
    var r := Segment(cfg, objects, text, probe, image, save);
    if r.objects != objects {
      PutKeepsOtherDescriptions(cfg, objects, text.value.storyState.locationDescription, image.bytes, other);
    }
  }

  /**
   * `generate_character_details_generic` once the text model has answered:
   * a parsed profile passes through, a `None` from `response.parsed` and
   * every unusable answer become a null payload, and only a raising call is
   * a status 500.
   */
  function CharacterDetails(text: TextOutcome<CharacterProfile>): (r: Reply<CharacterProfile>)
    ensures r.InternalError? <==> text.CallFails?
    ensures HasPayload(r) <==> text.Parsed?
    ensures text.Parsed? ==> r.response == Some(text.value)
  {
    match text
    case CallFails => InternalError
    case Parsed(profile) => Payload(Some(profile))
    case _ => Payload(None)
  }
}
