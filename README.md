# Story-segment image cache, modelled in Dafny

This project models the orchestration core of a story-generation backend. The backend exists in two near-duplicate variants: a FastAPI app (`main.py`) and an Express app (`js/main.js`). A request sends a prompt to a text model, which answers with a story segment as structured JSON. When the segment's `story_state.new_location` is set, the handler looks for a picture of the location in a storage bucket. The picture's object name is `{folder}/{md5hex(location_description)}.jpg`. On a miss the handler asks an image model for a picture and uploads it. The segment goes back with zero or one `StoryImage {url, description}`. A second, tiny path returns a character profile, or a null payload.

The external services are oracle inputs. `TextOutcome` is the text model's answer: the call raised, there was no response object, the text was empty, it did not parse, it parsed to nothing, or it parsed to a value of the expected schema. Each variant reads these cases off its own parsing step (see below). `Probe` says whether the bucket's existence check went through. `ImageOutcome` is the image model's answer: bytes, no bytes, filtered, or raised. `SaveOutcome` says whether the upload completed. MD5 (RFC 1321) applied to the UTF-8 encoding of a string is an opaque parameter, `Config.md5`, returning 16 bytes. The lowercase hexadecimal encoding, the object name and the public URL are concrete.

Files:
- `wrappers.dfy` (`Wrappers`): the option and result types.
- `hex.dfy` (`Hex`): lowercase hex encoding, its decoder, and the round trips between them.
- `cache_key.dfy` (`CacheKey`): object names, their parser, cache keys and public URLs.
- `image_cache.dfy` (`ImageCache`): the class `Store`, whose `objects` map is updated in place by `Save`. `Lookup` reads it and changes nothing.
- `story.dfy` (`Story`): the segment, state, image and character records, and the oracle datatypes.
- `story_segment_py.dfy` (`StorySegmentPy`): the `main.py` handler.
- `story_segment_js.dfy` (`StorySegmentJs`): the `js/main.js` handler.
- `variants.dfy` (`Variants`): where the two handlers agree and where they part ways.

Each handler has two parts. A specification function, `Segment` (with `PictureStep` for the part after parsing), maps the bucket before a request and the oracle answers to a `Run`: the reply, the bucket afterwards, and the external calls made in order. An imperative method (with `AttachPicture` for the part after parsing) runs the source's branches on a `Store` and assigns the segment's picture list on each branch. The store may hold objects other than cache entries. It is proved to produce exactly that `Run`. The invariants are `ensures` clauses of `Segment`:
- at most one picture;
- a picture always describes `location_description`;
- the bucket is written only after a miss followed by a successful generation;
- the image model is called only after a miss;
- image failures never void a parsed segment.

Where the two variants differ, the model follows the code:
- **Failed existence check.** `main.py` does not catch a failing existence check (main.py:245, 151), so the request ends in status 500. `js/main.js` turns it into a miss (js/main.js:92-95).
- **Missing response object.** In `js/main.js`, `result.response.text()` raises when there is no response object, so the story and character handlers answer 500. `main.py` answers a null payload.
- **Empty image bytes.** `main.py` rejects only absent bytes (`is None`), so an empty byte string is uploaded. `js/main.js` skips an empty base64 string, which is falsy.
- **What the parsing outcomes mean.** In `main.py`, parsing is reading `response.parsed`, the client library's schema-validated value (main.py:235). `Unparsable` means reading it raises, which gives a null payload (main.py:236-241). `ParsedNull` means it is `None`; the story handler then reads `story_state` from `None` and answers 500 (main.py:244, 283-285), and the character handler passes the `None` through (main.py:204-205). In `js/main.js`, parsing is `JSON.parse` of the text. `Unparsable` means it throws, and `ParsedNull` means the text is the JSON literal `null`; the story handler then answers 500 and the character handler returns the null. Which actual texts lead to which outcome in `main.py` is up to the client library, so the model does not claim that one given text is treated the same way by both variants.
- **Empty URL check.** The miss test `if not image_url` also treats an empty URL as a miss. The model keeps that test, and `PublicUrl`'s contract shows that a found URL is never empty.

## Model

| member | source | states |
|---|---|---|
| `Hex.Encode` | main.py:148 | The digest's text has two characters per byte, and every character is a lowercase hex digit. |
| `Hex.Decode` | main.py:148 | Inverse of the encoding: it succeeds exactly on even-length text made of lowercase hex digits, and then gives half as many bytes. |
| `Hex.DecodeEncode` | main.py:148 | Decoding the hex text of any byte string gives that byte string back. |
| `Hex.EncodeDecode` | js/main.js:83 | Every text that decodes is the hex encoding of its decoded bytes, so the encoding is a bijection onto that text. |
| `Hex.EncodeInjective` | js/main.js:83 | Two byte strings have the same hex text if and only if they are equal. |
| `CacheKey.ObjectName` | main.py:149 | The object name is the folder, a slash, 32 lowercase hex digits, then `.jpg`. |
| `CacheKey.ParseObjectNameRoundTrip` | main.py:157 | Reading an object name back gives the digest it was built from. |
| `CacheKey.ObjectNameOfParse` | js/main.js:84 | Every name that reads back under the folder is exactly the object name of its digest. |
| `CacheKey.ObjectNameInjective` | js/main.js:100 | Under one folder, two object names are equal if and only if their digests are equal. |
| `CacheKey.Key` | main.py:148-149 | The key of a description is a well-formed object name whose digest is the description's MD5. It depends on nothing but the folder and that digest, and lookup and save both use it. |
| `CacheKey.KeysAgreeIffDigestsAgree` | js/main.js:99-100 | Two descriptions map to the same object if and only if their MD5 digests collide. |
| `CacheKey.PublicUrl` | main.py:152 | The public URL starts with the storage endpoint, ends with the object name, and is never empty. |
| `CacheKey.PublicUrlInjective` | main.py:164 | Within one bucket, two objects have the same public URL if and only if they are the same object. |
| `ImageCache.FindAfterPut` | main.py:159-164 | After a save, a lookup of the same description finds the URL the save returned. |
| `ImageCache.PutKeepsOtherDescriptions` | main.py:156-162 | A save changes no lookup result for a description whose digest differs. |
| `ImageCache.PutIdempotent` | main.py:159-162 | Saving the same picture under the same description twice leaves the same objects as saving it once. |
| `ImageCache.Store.constructor` | main.py:35 | A handle on an existing bucket keeps the bucket, folder and hash it is given, and it keeps every object the bucket already holds: pictures cached by earlier runs and any other uploads. |
| `ImageCache.Store.Lookup` | main.py:146-153 | A failing existence check is an error. Otherwise the answer is the object's public URL when the derived object exists, and none when it does not. The bucket does not change. |
| `ImageCache.Store.LookupOrMiss` | js/main.js:82-96 | Same as `Lookup`, except that a failing existence check is reported as a miss (`null`). |
| `ImageCache.Store.Save` | main.py:155-164 | A completed upload stores the bytes as `image/jpeg` under the derived name and returns that name's public URL. A failed upload changes nothing and is an error (js/main.js:102-111 rethrows it). The bucket may hold other objects, and a bucket that held only cache entries still does afterwards. |
| `ImageCache.SaveThenLookup` | main.py:146-164 | A save followed by a lookup of the same description finds exactly the URL the save returned. |
| `Story.Pictured` | main.py:268 | The segment gets exactly one picture, at the given URL, describing its own location. Everything else is unchanged. |
| `Story.Unpictured` | main.py:280 | The segment gets an empty picture list. Everything else is unchanged. |
| `StorySegmentPy.Segment` | main.py:225-282 | Null payload exactly for a missing response, an empty text or a parse failure. Status 500 exactly when the call raised, `response.parsed` was `None`, or the existence check raised. A returned segment is the parsed one with at most one picture of its own location, at its object's URL. A parsed segment survives every image failure. The bucket changes only by one upload after a miss and a generation with bytes. The image model is asked only after a miss. |
| `StorySegmentPy.GenerateStorySegment` | main.py:212-285 | On any bucket, the handler produces exactly the reply, the bucket and the calls that `Segment` specifies. A bucket that held only cache entries still does afterwards. |
| `StorySegmentPy.PictureStep` | main.py:243-280 | For a parsed segment, status 500 exactly when the location is new and the existence check raises. Otherwise the segment is kept, with at most one picture of its location, at its object's URL. The bucket changes only by one upload after a miss and a generation with bytes, and the image model is asked only after a miss. |
| `StorySegmentPy.AttachPicture` | main.py:243-282 | The lookup, generation and upload branches, with in-place assignments to the picture list on every branch, produce exactly what `PictureStep` specifies. |
| `StorySegmentPy.OldLocationHasNoPicture` | main.py:279-280 | When `new_location` is false: no picture, no image-model call, and the bucket is unchanged. |
| `StorySegmentPy.CacheHitServesCachedUrl` | main.py:276-278 | On a hit: exactly one picture, with the cached URL and `location_description`. Neither generation nor upload happens. |
| `StorySegmentPy.MissGeneratesAndStoresOnce` | main.py:261-268 | On a miss with bytes and a completed upload: exactly one upload, keyed by `location_description`. Exactly one picture, at the URL that a later lookup finds. |
| `StorySegmentPy.MissWithoutPictureDegrades` | main.py:259-275 | On a miss that is filtered, has no bytes, raises, or fails to upload: the parsed segment is still returned, with no picture, and the bucket is unchanged. |
| `StorySegmentPy.RepeatedLocationIsHit` | main.py:244-268 | A second segment at a location the first one pictured gets the same picture, with no generation or upload. |
| `StorySegmentPy.SegmentKeepsOtherLocations` | main.py:265-266 | No request changes the lookup result of a description whose digest differs from the segment's. |
| `StorySegmentPy.CharacterDetails` | main.py:202-210 | A parsed profile passes through unchanged. A `None` from `response.parsed` and every unusable answer give a null payload, never a made-up profile. Only a call that raises gives status 500. |
| `StorySegmentJs.Segment` | js/main.js:201-257 | Null payload exactly for an empty or unparsable text. Status 500 exactly when no text could be read or the text parsed to the JSON literal `null` (among schema-conforming answers; see "## Left out"). Every parsed segment is returned, even when storage fails, with at most one picture of its own location, at its object's URL. The bucket changes only by one upload after a miss (or a failed check) and non-empty image data. |
| `StorySegmentJs.HandleStorySegment` | js/main.js:201-259 | On any bucket, the handler with the JSON parse in place produces exactly what `Segment` specifies. A bucket that held only cache entries still does afterwards. |
| `StorySegmentJs.PictureStep` | js/main.js:217-257 | A parsed segment is always returned, with at most one picture of its location, at its object's URL. The bucket changes only by one upload after a miss (or a failed check) and non-empty image data, and the image model is asked only then. |
| `StorySegmentJs.AttachPicture` | js/main.js:217-257 | The lookup, generation and upload branches, with picture-list assignments on every branch, produce exactly what `PictureStep` specifies. |
| `StorySegmentJs.SegmentAsWritten` | js/main.js:208-217 | As written, with the parse commented out, no request returns a segment: every non-empty text ends in status 500, and the bucket is untouched. |
| `StorySegmentJs.AsWrittenLosesEverySegment` | js/main.js:208-210 | Every parsed segment that the handler with the parse would return is a status 500 as written. |
| `StorySegmentJs.OldLocationHasNoPicture` | js/main.js:255-256 | When `new_location` is false: no picture, no image-model call, and the bucket is unchanged. |
| `StorySegmentJs.CacheHitServesCachedUrl` | js/main.js:248-253 | On a hit: exactly one picture, with the cached URL and `location_description`. Neither generation nor upload happens. |
| `StorySegmentJs.MissGeneratesAndStoresOnce` | js/main.js:230-239 | On a miss or a failed check, with image data and a completed upload: exactly one upload, keyed by `location_description`. Exactly one picture, at the URL that a later lookup finds. |
| `StorySegmentJs.MissWithoutPictureDegrades` | js/main.js:240-247 | On a miss without image data, or whose upload raises: the segment is returned with no picture, and the bucket is unchanged. |
| `StorySegmentJs.CharacterDetails` | js/main.js:153-171 | An empty text or a parse failure gives a null payload, and `null` passes through as null. A parsed profile passes through unchanged. Only a raising call, including a missing response object, gives status 500. |
| `Variants.SegmentVariantsAgree` | js/main.js:217-257 | With reachable storage, a response object and no empty image payload, both handlers give the same reply, bucket and calls for the same oracle outcome, up to the URL's percent-encoding. The outcome is the one each variant's own parsing step reports; the same text need not give the same outcome in both. |
| `Variants.UnreachableStorageDiverges` | js/main.js:86-95 | A failing existence check gives status 500 in `main.py`. In `js/main.js` the segment is still returned and the image model is asked. |
| `Variants.EmptyImageDiverges` | js/main.js:230 | A zero-byte image is uploaded and attached by `main.py`, and skipped by `js/main.js`. |
| `Variants.CharacterVariantsAgree` | js/main.js:153-167 | Both character paths agree, except that a missing response object gives null in `main.py` and status 500 in `js/main.js`. |

## Left out

- HTTP routing is not modelled: FastAPI, Express, multer, uvicorn, the status codes other than "payload" versus 500, response timeouts and keep-alive headers. This is framework I/O.
- Bucket IAM, public access and CORS setup (main.py:37-59; js/main.js:44-72) are not modelled. This is one-time external configuration.
- `validate_image` and `validateImage`, and the upload-format check of the image-based character endpoint, are not modelled. They are wrappers over PIL and sharp.
- The text and image models are not modelled, including prompt building (the character prompt, the `parts` array, the polaroid scene prompt, aspect ratio and image count). They appear only through their answers (`TextOutcome`, `ImageOutcome`). The external-call trace records the image request by its location description.
- The `Promise.race` timeout of js/main.js:191-199 is not modelled separately. A timeout is one of the ways the text call raises (`CallFails`).
- `main.py` raises an IndexError when the image model returns no images. This is one of the ways image generation raises (`ImageThrows`).
- MD5 internals and the UTF-8 encoding of the description are folded into the opaque `Config.md5`. So key equality is proved only up to digest collisions.
- Decoding the base64 image string in js/main.js:233 is not modelled. `Bytes` carries the decoded bytes, and an empty string corresponds to zero bytes.
- CacheKey.PublicUrl: it does not percent-encode the object name the way the storage client libraries do (and the two libraries encode differently). It keeps the endpoint, the bucket and the name, so URLs stay distinct per object.
- The `/health` endpoint is not modelled: it is connectivity probing.
- `js/schema.js` is not modelled: it holds declarative schemas only. The test scripts are not modelled: they are manual upload and generation scripts.
- Concurrent requests racing to generate and upload the same key are not modelled. Each `Segment` is one sequential request.
- Logging is not modelled.
- `js/main.js` does not check the parsed JSON against the schema. Any parsed value without a `story_state` object (`{}`, `42`, `"x"`, `[]`) also ends in status 500 at js/main.js:217 and 260-263, and the character handler passes any JSON value through as a non-null payload (js/main.js:161-163). `Parsed` carries only schema-conforming values, so these answers are not modelled.
- The mapping from the text model's actual text to `main.py`'s parsing outcome is not modelled. Whether a text that fails schema validation makes `response.parsed` raise or return `None` is up to the client library, which is not part of this model. The model covers both outcomes, each with the branch `main.py` takes for it.
- The text model's answer is parsed into a `StoryResponse` value. The handler then replaces its local copy with one whose picture list is assigned. Nothing else holds a reference to the parsed object, so mutation through aliases is not modelled.

## Findings

| source | as written | input that shows it | evidently intended | confidence | as-written member | corrected member |
|---|---|---|---|---|---|---|
| js/main.js:208-217 | `JSON.parse` is commented out, so `storyData` stays the raw response string. `storyData.story_state.new_location` then raises a TypeError, and the handler answers status 500 (js/main.js:260-263). `StorySegmentJs.AsWrittenLosesEverySegment` shows this for every parsed segment. | Any non-empty text from the text model, for example a valid StoryResponse JSON whose `new_location` is false. | `storyData = JSON.parse(response)`, with a parse failure answering `{response: null}` as the catch block does. | high, not executed | `StorySegmentJs.SegmentAsWritten` | `StorySegmentJs.Segment` |
