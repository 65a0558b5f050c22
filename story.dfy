/**
 * The values the story endpoints exchange, and the answers of the external
 * services (text model, image model, storage) that the handlers branch on.
 */
module Story {
  import opened Wrappers
  import opened Hex
  import opened ImageCache

  datatype StoryChoice = StoryChoice(text: string, impact: string, tensionLevel: int)

  /** A picture attached to a segment: its URL and the location description it shows. */
  datatype StoryImage = StoryImage(url: string, description: string)

  datatype StoryState = StoryState(
    location: string,
    newLocation: bool,
    locationDescription: string,
    activePlotThreads: seq<string>,
    unresolvedElements: seq<string>,
    storyPhase: string,
    emotionalTone: string,
    currentTension: int)

  datatype StoryResponse = StoryResponse(
    text: string,
    choices: seq<StoryChoice>,
    currentTension: int,
    storyState: StoryState,
    storyImages: seq<StoryImage>,
    storyOver: bool)

  datatype CharacterProfile = CharacterProfile(
    name: string,
    age: int,
    personality: seq<string>,
    occupation: string,
    gender: string)

  /**
   * What the text model's call gives the handler: the call raised, no
   * response object, an empty text, a text that does not parse, a parse
   * that yields nothing, or a parsed value. In the FastAPI variant parsing
   * is reading the client's schema-validated `parsed` field: `Unparsable`
   * when reading it raises, `ParsedNull` when it is `None`. In the Express
   * variant it is `JSON.parse`: `Unparsable` when it throws, `ParsedNull`
   * for the literal `null`. `Parsed` carries only schema-conforming values.
   */
  datatype TextOutcome<T> = CallFails | NoResponse | EmptyText | Unparsable | ParsedNull | Parsed(value: T)

  /** What the image model's call gives the handler. */
  datatype ImageOutcome = Bytes(bytes: seq<Byte>) | NoBytes | Filtered | ImageThrows

  /** The HTTP answer: a `{response: ...}` body whose payload may be null, or a status 500. */
  datatype Reply<T> = Payload(response: Option<T>) | InternalError

  /** The external calls one request makes, in order. */
  datatype ExternalCall = TextModel | CacheExists(name: string) | ImageModel(description: string) | CacheUpload(name: string)

  /** One request's answer, the bucket afterwards and the calls it made. */
  datatype Run<T> = Run(reply: Reply<T>, objects: Objects, calls: seq<ExternalCall>)

  /** The segment with exactly one picture, at `url`, of its own location. */
  function Pictured(s: StoryResponse, url: string): (p: StoryResponse)
    ensures ImagesFitLocation(p) && |p.storyImages| == 1 && p.storyImages[0].url == url
    ensures SameSegment(p, s)
  {
    s.(storyImages := [StoryImage(url, s.storyState.locationDescription)])
  }

  /** The segment with no picture. */
  function Unpictured(s: StoryResponse): (p: StoryResponse)
    ensures ImagesFitLocation(p) && p.storyImages == []
    ensures SameSegment(p, s)
  {
    s.(storyImages := [])
  }

  /** At most one picture, and every picture shows the segment's location. */
  ghost predicate ImagesFitLocation(s: StoryResponse)
  {
    |s.storyImages| <= 1
    && forall img | img in s.storyImages :: img.description == s.storyState.locationDescription
  }

  /** `a` is `b` except perhaps for its pictures: everything the text model wrote is kept. */
  ghost predicate SameSegment(a: StoryResponse, b: StoryResponse)
  {
    a.(storyImages := b.storyImages) == b
  }

  /** The reply carries a non-null payload. */
  predicate HasPayload<T>(reply: Reply<T>)
  {
    reply.Payload? && reply.response.Some?
  }

  /** The text model answered with something that is not a usable segment. */
  predicate UnusableText<T>(text: TextOutcome<T>)
  {
    text.NoResponse? || text.EmptyText? || text.Unparsable?
  }

  /** The parsed segment introduces a new location, so a picture is wanted. */
  predicate WantsPicture(text: TextOutcome<StoryResponse>)
  {
    text.Parsed? && text.value.storyState.newLocation
  }
}
