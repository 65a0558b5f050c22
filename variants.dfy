/**
 * The two application variants side by side: where they implement the same
 * design, and the inputs on which they part ways.
 */
module Variants {
  import opened Wrappers
  import opened CacheKey
  import opened ImageCache
  import opened Story
  import Py = StorySegmentPy
  import Js = StorySegmentJs

  /**
   * With reachable storage, a response object from the text model and no
   * empty image payload, both variants answer alike, leave the same bucket
   * and make the same calls.
   */
  lemma SegmentVariantsAgree(cfg: Config, objects: Objects, text: TextOutcome<StoryResponse>,
                             image: ImageOutcome, save: SaveOutcome)
    requires !text.NoResponse?
    requires image.Bytes? ==> image.bytes != []
    ensures Py.Segment(cfg, objects, text, Reachable, image, save) == Js.Segment(cfg, objects, text, Reachable, image, save)
  {
  }

  /**
   * A failing existence check is a status 500 in main.py, where nothing
   * catches it, and a miss in js/main.js, which generates the picture anew.
   */
  lemma UnreachableStorageDiverges(cfg: Config, objects: Objects, s: StoryResponse,
                                   image: ImageOutcome, save: SaveOutcome)
    requires s.storyState.newLocation
    ensures Py.Segment(cfg, objects, Parsed(s), Unreachable, image, save).reply == InternalError
    ensures HasPayload(Js.Segment(cfg, objects, Parsed(s), Unreachable, image, save).reply)
    ensures ImageModel(s.storyState.locationDescription) in Js.Segment(cfg, objects, Parsed(s), Unreachable, image, save).calls
  {
  }

  /**
   * An image result with zero bytes is uploaded and attached by main.py,
   * which only rejects absent bytes, and skipped by js/main.js, whose empty
   * base64 string is falsy.
   */
  lemma EmptyImageDiverges(cfg: Config, objects: Objects, s: StoryResponse)
    requires s.storyState.newLocation
    requires Find(cfg, objects, s.storyState.locationDescription).None?
    ensures var py := Py.Segment(cfg, objects, Parsed(s), Reachable, Bytes([]), SaveOk);
            py.objects == Put(cfg, objects, s.storyState.locationDescription, [])
            && py.reply.response.value.storyImages != []
    ensures var js := Js.Segment(cfg, objects, Parsed(s), Reachable, Bytes([]), SaveOk);
            js.objects == objects && js.reply.response.value.storyImages == []
  {
  }

  /** Both character paths agree except on a missing response object. */
  lemma CharacterVariantsAgree(text: TextOutcome<CharacterProfile>)
    ensures !text.NoResponse? ==> Py.CharacterDetails(text) == Js.CharacterDetails(text)
    ensures text.NoResponse? ==> Py.CharacterDetails(text) == Payload(None) && Js.CharacterDetails(text) == InternalError
  {
  }
}
