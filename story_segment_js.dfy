/**
 * The Express variant (js/main.js): the branch logic of the
 * `/generate-story-segment` handler once the text model has answered, and
 * the empty-text and parse-failure handling of `generateCharacterDetails`.
 */
module StorySegmentJs {
  import opened Wrappers
  import opened Hex
  import opened CacheKey
  import opened ImageCache
  import opened Story

  /** The image model's answer carries image data (a non-empty base64 string). */
  predicate HasImageData(image: ImageOutcome)
  {
    image.Bytes? && |image.bytes| > 0
  }

  /**
   * The outcome of one `/generate-story-segment` request, with the model's
   * text parsed as JSON before the handler reads `story_state`.
   */
  function Segment(cfg: Config, objects: Objects, text: TextOutcome<StoryResponse>,
                   probe: Probe, image: ImageOutcome, save: SaveOutcome): (r: Run<StoryResponse>)
    // a returned segment is the parsed one with zero or one picture of its own location
    ensures HasPayload(r.reply) ==>
              text.Parsed? && SameSegment(r.reply.response.value, text.value)
              && ImagesFitLocation(r.reply.response.value)
    // the null payload answers exactly an empty or unparsable text
    ensures r.reply == Payload(None) <==> text.EmptyText? || text.Unparsable?
    // status 500 only when no text could be read or the model said null
    ensures r.reply.InternalError? <==> text.CallFails? || text.NoResponse? || text.ParsedNull?
    // nothing that happens to the picture, storage included, voids a parsed segment
    ensures text.Parsed? ==> HasPayload(r.reply)
    // a picture is only attached to a new location, and its object is in the bucket afterwards
    ensures HasPayload(r.reply) && r.reply.response.value.storyImages != [] ==>
              var key := Key(cfg, text.value.storyState.locationDescription);
              text.value.storyState.newLocation && key in r.objects
              && r.reply.response.value.storyImages[0].url == PublicUrl(cfg.bucket, key)
    // the bucket changes only by one upload after a miss and a generation with image data
    ensures r.objects != objects ==>
              WantsPicture(text) && HasImageData(image) && save == SaveOk
              && (probe == Unreachable || Find(cfg, objects, text.value.storyState.locationDescription).None?)
              && r.objects == Put(cfg, objects, text.value.storyState.locationDescription, image.bytes)
    // the image model is only asked after a miss, and uploads only go to the description's key
    ensures forall c | c in r.calls :: c.ImageModel? ==>
              WantsPicture(text)
              && (probe == Unreachable || Find(cfg, objects, text.value.storyState.locationDescription).None?)
    ensures forall c | c in r.calls :: c.CacheUpload? ==>
              text.Parsed? && HasImageData(image) && c.name == Key(cfg, text.value.storyState.locationDescription)
  {
    match text
    case CallFails => Run(InternalError, objects, [TextModel])
    case NoResponse => Run(InternalError, objects, [TextModel])
    case EmptyText => Run(Payload(None), objects, [TextModel])
    case Unparsable => Run(Payload(None), objects, [TextModel])
    case ParsedNull => Run(InternalError, objects, [TextModel])
    case Parsed(s) =>
      var p := PictureStep(cfg, objects, s, probe, image, save);
      assert forall c | c in [TextModel] + p.calls :: c == TextModel || c in p.calls;
      Run(p.reply, p.objects, [TextModel] + p.calls)
  }

  /**
   * What happens to a parsed segment: on a new location, the lookup (a
   * failing check counts as a miss), and on a miss the generation and
   * upload; the calls are those made after the text model's.
   */
  function PictureStep(cfg: Config, objects: Objects, s: StoryResponse,
                       probe: Probe, image: ImageOutcome, save: SaveOutcome): (r: Run<StoryResponse>)
    // nothing that happens to the picture, storage included, voids the segment
    ensures HasPayload(r.reply) && SameSegment(r.reply.response.value, s)
            && ImagesFitLocation(r.reply.response.value)
    // a picture is only attached to a new location, and its object is in the bucket afterwards
    ensures r.reply.response.value.storyImages != [] ==>
              var key := Key(cfg, s.storyState.locationDescription);
              s.storyState.newLocation && key in r.objects
              && r.reply.response.value.storyImages[0].url == PublicUrl(cfg.bucket, key)
    // the bucket changes only by one upload after a miss and a generation with image data
    ensures r.objects != objects ==>
              s.storyState.newLocation && HasImageData(image) && save == SaveOk
              && (probe == Unreachable || Find(cfg, objects, s.storyState.locationDescription).None?)
              && r.objects == Put(cfg, objects, s.storyState.locationDescription, image.bytes)
    // the image model is only asked after a miss, and uploads only go to the description's key
    ensures forall c | c in r.calls :: c.ImageModel? ==>
              s.storyState.newLocation
              && (probe == Unreachable || Find(cfg, objects, s.storyState.locationDescription).None?)
    ensures forall c | c in r.calls :: c.CacheUpload? ==>
              HasImageData(image) && c.name == Key(cfg, s.storyState.locationDescription)
  {
    var description := s.storyState.locationDescription;
    var key := Key(cfg, description);
    var cached := if probe == Reachable then Find(cfg, objects, description) else None;
    if !s.storyState.newLocation then
      Run(Payload(Some(Unpictured(s))), objects, [])
    else if cached.Some? then
      Run(Payload(Some(Pictured(s, cached.value))), objects, [CacheExists(key)])
    else
      var generated := [CacheExists(key), ImageModel(description)];
      assert probe == Unreachable || Find(cfg, objects, description).None?;
      if !HasImageData(image) then
        Run(Payload(Some(Unpictured(s))), objects, generated)
      else if save == SaveOk then
        Run(Payload(Some(Pictured(s, PublicUrl(cfg.bucket, key)))),
            Put(cfg, objects, description, image.bytes), generated + [CacheUpload(key)])
      else
        Run(Payload(Some(Unpictured(s))), objects, generated + [CacheUpload(key)])
  }

  /**
   * The `/generate-story-segment` handler from the text model's answer on,
   * with the JSON parse in place: check for empty text, parse, then attach
   * the location's picture.
   */
  method HandleStorySegment(cache: Store, text: TextOutcome<StoryResponse>,
                            probe: Probe, image: ImageOutcome, save: SaveOutcome)
    returns (reply: Reply<StoryResponse>, calls: seq<ExternalCall>)
    modifies cache
    ensures old(cache.HoldsOnlyCacheEntries()) ==> cache.HoldsOnlyCacheEntries()
    ensures Segment(cache.config, old(cache.objects), text, probe, image, save) == Run(reply, cache.objects, calls)
  {
    calls := [TextModel];
    if text.CallFails? || text.NoResponse? {
      return InternalError, calls;
    }
    if text.EmptyText? {
      return Payload(None), calls;
    }
    if text.Unparsable? {
      return Payload(None), calls;
    }
    if text.ParsedNull? {
      return InternalError, calls;
    }
    var pictureCalls;
    reply, pictureCalls := AttachPicture(cache, text.value, probe, image, save);
    calls := calls + pictureCalls;
  }

  /**
   * The picture part of the handler: on a new location look the picture up
   * (a failing check counts as a miss), generate on a miss and upload,
   * assigning the picture list on every branch.
   */
  method AttachPicture(cache: Store, storyData: StoryResponse,
                       probe: Probe, image: ImageOutcome, save: SaveOutcome)
    returns (reply: Reply<StoryResponse>, calls: seq<ExternalCall>)
    modifies cache
    ensures old(cache.HoldsOnlyCacheEntries()) ==> cache.HoldsOnlyCacheEntries()
    ensures PictureStep(cache.config, old(cache.objects), storyData, probe, image, save) == Run(reply, cache.objects, calls)
  {
    var story := storyData;
    var description := story.storyState.locationDescription;
    calls := [];
    if story.storyState.newLocation {
      calls := calls + [CacheExists(Key(cache.config, description))];
      var imageUrl := cache.LookupOrMiss(description, probe);
      if imageUrl.None? || imageUrl.value == "" {
        calls := calls + [ImageModel(description)];
        if HasImageData(image) {
          calls := calls + [CacheUpload(Key(cache.config, description))];
          var saved := cache.Save(description, image.bytes, save);
          if saved.Success? {
            imageUrl := Some(saved.value);
            story := story.(storyImages := [StoryImage(imageUrl.value, description)]);
          } else {
            story := story.(storyImages := []);
          }
        } else {
          story := story.(storyImages := []);
        }
      } else {
        story := story.(storyImages := [StoryImage(imageUrl.value, description)]);
      }
    } else {
      story := story.(storyImages := []);
    }
    return Payload(Some(story)), calls;
  }

  /**
   * The handler as the source has it, with `JSON.parse` commented out: the
   * segment stays the raw text, reading `story_state.new_location` from a
   * string raises, and every non-empty text ends in a status 500.
   */
  function SegmentAsWritten(objects: Objects, text: TextOutcome<StoryResponse>): (r: Run<StoryResponse>)
    ensures !HasPayload(r.reply)
    ensures r.reply.InternalError? <==> !text.EmptyText?
    ensures r.objects == objects && r.calls == [TextModel]
  {
    match text
    case EmptyText => Run(Payload(None), objects, [TextModel])
    case _ => Run(InternalError, objects, [TextModel])
  }

  /** Every well-formed segment the corrected handler returns is a status 500 as written. */
  lemma AsWrittenLosesEverySegment(cfg: Config, objects: Objects, s: StoryResponse,
                                   probe: Probe, image: ImageOutcome, save: SaveOutcome)
    ensures HasPayload(Segment(cfg, objects, Parsed(s), probe, image, save).reply)
    ensures SegmentAsWritten(objects, Parsed(s)).reply == InternalError
  {
  }

  /** An old location: no picture, no image model, no change to the bucket. */
  lemma OldLocationHasNoPicture(cfg: Config, objects: Objects, s: StoryResponse,
                                probe: Probe, image: ImageOutcome, save: SaveOutcome)
    requires !s.storyState.newLocation
    ensures var r := Segment(cfg, objects, Parsed(s), probe, image, save);
            r.reply == Payload(Some(Unpictured(s))) && r.objects == objects && r.calls == [TextModel]
  {
  }

  /** A hit: one picture at the cached URL, neither generation nor upload. */
  lemma CacheHitServesCachedUrl(cfg: Config, objects: Objects, s: StoryResponse,
                                image: ImageOutcome, save: SaveOutcome)
    requires s.storyState.newLocation
    requires Find(cfg, objects, s.storyState.locationDescription).Some?
    ensures var r := Segment(cfg, objects, Parsed(s), Reachable, image, save);
            var url := Find(cfg, objects, s.storyState.locationDescription).value;
            r.reply == Payload(Some(s.(storyImages := [StoryImage(url, s.storyState.locationDescription)])))
            && r.objects == objects
            && r.calls == [TextModel, CacheExists(Key(cfg, s.storyState.locationDescription))]
  {
  }

  /**
   * A miss (or a failed existence check) with image data and a completed
   * upload: exactly one upload, keyed by the location description, and one
   * picture at the URL a later lookup finds.
   */
  lemma MissGeneratesAndStoresOnce(cfg: Config, objects: Objects, s: StoryResponse,
                                   probe: Probe, bytes: seq<Byte>)
    requires s.storyState.newLocation && |bytes| > 0
    requires probe == Unreachable || Find(cfg, objects, s.storyState.locationDescription).None?
    ensures var r := Segment(cfg, objects, Parsed(s), probe, Bytes(bytes), SaveOk);
            var description := s.storyState.locationDescription;
            var key := Key(cfg, description);
            r.objects == Put(cfg, objects, description, bytes)
            && r.calls == [TextModel, CacheExists(key), ImageModel(description), CacheUpload(key)]
            && r.reply == Payload(Some(s.(storyImages := [StoryImage(PublicUrl(cfg.bucket, key), description)])))
            && Find(cfg, r.objects, description) == Some(PublicUrl(cfg.bucket, key))
  {
    FindAfterPut(cfg, objects, s.storyState.locationDescription, bytes);
  }

  /** A miss without image data, or whose upload raises: the segment without a picture. */
  lemma MissWithoutPictureDegrades(cfg: Config, objects: Objects, s: StoryResponse,
                                   probe: Probe, image: ImageOutcome, save: SaveOutcome)
    requires s.storyState.newLocation
    requires probe == Unreachable || Find(cfg, objects, s.storyState.locationDescription).None?
    requires !HasImageData(image) || save == SaveThrows
    ensures var r := Segment(cfg, objects, Parsed(s), probe, image, save);
            r.reply == Payload(Some(Unpictured(s))) && r.objects == objects
  {
  }

  /**
   * `generateCharacterDetails` once the text model has answered: an empty
   * text or a parse failure is a null payload, the model's `null` passes
   * through as null, a parsed profile passes through, and a call that raises
   * (including reading the text of a missing response) is a status 500.
   */
  function CharacterDetails(text: TextOutcome<CharacterProfile>): (r: Reply<CharacterProfile>)
    ensures r.InternalError? <==> text.CallFails? || text.NoResponse?
    ensures HasPayload(r) <==> text.Parsed?
    ensures text.Parsed? ==> r.response == Some(text.value)
  {
    match text
    case CallFails => InternalError
    case NoResponse => InternalError
    case EmptyText => Payload(None)
    case Unparsable => Payload(None)
    case ParsedNull => Payload(None)
    case Parsed(profile) => Payload(Some(profile))
  }
}
