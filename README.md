# Station resolution for a Radio Garden client

This project models, in Dafny, the station-resolution engine of an Android client for the
Radio Garden directory of internet radio stations. The user pastes a string; the engine
decides whether it is a direct stream url, a Radio Garden channel link (`/listen/<name>/<id>`)
or a place link (`/visit/<name>/<id>`), and produces one of three results:

- `SingleStation`: a channel resolved to its title, place, country, website and playable stream url;
- `MultipleStations`: the channels listed on a place page, for the user to pick one;
- `DirectStream`: the pasted url itself, when it is a web url outside the directory.

Otherwise it fails with a message. A picked channel item is resolved afterwards by a second
entry point. The engine talks to the directory through three GET requests: channel metadata,
the stream endpoint (answered by a redirect, or by the stream itself), and the channels of a place.

Modules, one per source file or component:

- `Wrappers` (wrappers.dfy): `Option` and `Result`.
- `Text` (text.dfy): ASCII case folding, `startsWith`/`contains`, and the decimal text of a status code.
- `Dto` (dto.dfy): the response data classes, with their default values as constructor
  defaults, and the step that turns a parsed JSON object into an instance: a present key
  keeps its value, an absent key takes its declared default, and a missing required `data` key fails.
- `Api` (api.dfy): the request templates, the User-Agent, the status and body checks, the
  stream-url rule, and the three fetches.
- `Classifier` (classifier.dfy): the two url patterns, written as a hand-made leftmost-match
  search and specified by a declarative description of a match, plus the direct-stream test.
- `Repository` (repository.dfy): the aggregation of a place's channel items,
  single-channel resolution, `ResolveUrl` and `ResolveChannelFromItem`.

The network is a parameter. A `Directory` value gives the response to each request (or none) and the
JSON object each response body parses to. Every operation returns an `Exchange`: its result
and the requests it sent, in order. "No network call" means an empty list of requests.
Thrown errors become `Err(Message(text))` with the source's exact text. A body the
serializer rejects becomes `Err(Undecodable)`. A call that fails in transport (an I/O
error or a timeout while executing it or reading its body) has no response, and becomes
`Err(Transport)`.

Behaviour as coded, which the model follows:

- Single-channel resolution sends the metadata request first. It sends the stream request
  only after the metadata request has succeeded. The two never run concurrently.
- The channel id is the identifier right after the first `/listen/<segment>/` that is
  followed by one. It need not be the last path segment: `/listen/a/b/c` gives `b`.
- A response counts as a redirect only for status 300, 301, 302, 303, 307 or 308. A redirect
  without a `Location` header fails with "No redirect location". It does not fall back to
  the request url.

## Model

| member | source | states |
|---|---|---|
| Text.LowerChar | app/src/main/java/com/example/radiogarden/data/repository/RadioRepository.kt:103 | an upper-case ASCII letter becomes its lower-case letter; every other character is unchanged |
| Text.Lowercase | app/src/main/java/com/example/radiogarden/data/repository/RadioRepository.kt:103 | lowercasing keeps the length and folds each character |
| Text.NatText | app/src/main/java/com/example/radiogarden/data/remote/RadioGardenApi.kt:25 | a status code's text is non-empty, all digits, no leading zero |
| Text.IntText | app/src/main/java/com/example/radiogarden/data/remote/RadioGardenApi.kt:25 | a negative code is written with a leading minus |
| Text.NatTextRoundTrip | app/src/main/java/com/example/radiogarden/data/remote/RadioGardenApi.kt:25 | the code written into a message reads back as the same number |
| Text.IntTextInjective | app/src/main/java/com/example/radiogarden/data/remote/RadioGardenApi.kt:43 | different codes give different texts |
| Dto.DecodeChannelResponse | app/src/main/java/com/example/radiogarden/data/remote/dto/ChannelResponse.kt:6-18 | a channel body decodes exactly when its required `data` key is present, into the data with defaults applied |
| Dto.DecodePlaceChannelsResponse | app/src/main/java/com/example/radiogarden/data/remote/dto/ChannelResponse.kt:32-40 | a place body decodes exactly when its required `data` key is present |
| Dto.DecodeItems | app/src/main/java/com/example/radiogarden/data/remote/dto/ChannelResponse.kt:44 | a JSON item array decodes element by element, in order |
| Dto.DecodeContent | app/src/main/java/com/example/radiogarden/data/remote/dto/ChannelResponse.kt:39 | a JSON content array decodes block by block, in order |
| Dto.DecodePlaceRef | app/src/main/java/com/example/radiogarden/data/remote/dto/ChannelResponse.kt:20-24 | a present `id` or `title` is kept; an absent one is "" |
| Dto.DecodeCountryRef | app/src/main/java/com/example/radiogarden/data/remote/dto/ChannelResponse.kt:26-30 | a present `id` or `title` is kept; an absent one is "" |
| Dto.DecodeChannelData | app/src/main/java/com/example/radiogarden/data/remote/dto/ChannelResponse.kt:11-18 | present title, url and website are kept, absent ones are ""; an absent place or country is the empty reference, a present one is decoded |
| Dto.DecodeChannelPage | app/src/main/java/com/example/radiogarden/data/remote/dto/ChannelResponse.kt:57-61 | a present `title` or `url` is kept; an absent one is "" |
| Dto.DecodePlaceChannelItem | app/src/main/java/com/example/radiogarden/data/remote/dto/ChannelResponse.kt:49-55 | present href and title are kept, absent ones are ""; an absent `page` is the empty page, a present one is decoded |
| Dto.DecodePlaceContent | app/src/main/java/com/example/radiogarden/data/remote/dto/ChannelResponse.kt:42-47 | absent `items` is the empty list, present ones are decoded in order; absent `itemsType` and `type` are "" |
| Dto.DecodePlaceChannelsData | app/src/main/java/com/example/radiogarden/data/remote/dto/ChannelResponse.kt:37-40 | absent `content` is the empty list, present content is decoded in order |
| Dto.MissingMetadataIsEmpty | app/src/main/java/com/example/radiogarden/data/remote/dto/ChannelResponse.kt:11-30 | channel data lacking every optional key decodes, with empty title, url, website, place and country |
| Dto.MissingContentIsEmpty | app/src/main/java/com/example/radiogarden/data/remote/dto/ChannelResponse.kt:37-40 | place data lacking `content` decodes to no blocks |
| Dto.MissingBlockFieldsAreEmpty | app/src/main/java/com/example/radiogarden/data/remote/dto/ChannelResponse.kt:42-47 | a block lacking `items` and `itemsType` has no items and the empty tag, so it is never a channel block |
| Dto.MissingPageHasEmptyUrl | app/src/main/java/com/example/radiogarden/data/remote/dto/ChannelResponse.kt:49-61 | an item lacking `page` has an empty page url; its href is read independently |
| Dto.ChannelDataRoundTrip | app/src/main/java/com/example/radiogarden/data/remote/dto/ChannelResponse.kt:11-30 | decoding a fully populated channel object returns the data it was made from |
| Dto.PlaceChannelsDataRoundTrip | app/src/main/java/com/example/radiogarden/data/remote/dto/ChannelResponse.kt:37-61 | decoding a fully populated place object returns its blocks and items |
| Api.ChannelRequest | app/src/main/java/com/example/radiogarden/data/remote/RadioGardenApi.kt:20-23 | the metadata request carries the User-Agent, targets the content api and follows redirects |
| Api.ListenRequest | app/src/main/java/com/example/radiogarden/data/remote/RadioGardenApi.kt:32-35 | the stream request carries the User-Agent, targets the content api and does not follow redirects |
| Api.PlaceChannelsRequest | app/src/main/java/com/example/radiogarden/data/remote/RadioGardenApi.kt:49-52 | the place request carries the User-Agent and targets the content api |
| Api.ChannelUrl | app/src/main/java/com/example/radiogarden/data/remote/RadioGardenApi.kt:21 | the metadata url lies under the content api and ends with the channel id |
| Api.ListenUrl | app/src/main/java/com/example/radiogarden/data/remote/RadioGardenApi.kt:33 | the stream url lies under the content api, holds the channel id after "listen/" and ends with "/channel.mp3" |
| Api.PlaceChannelsUrl | app/src/main/java/com/example/radiogarden/data/remote/RadioGardenApi.kt:50 | the place url lies under the content api, holds the place id after "page/" and ends with "/channels" |
| Api.EndpointsDetermineId | app/src/main/java/com/example/radiogarden/data/remote/RadioGardenApi.kt:21-50 | each endpoint url determines its id, so the id is the templates' only parameter |
| Api.EndpointsDistinct | app/src/main/java/com/example/radiogarden/data/remote/RadioGardenApi.kt:21-50 | the channel, listen and place endpoints never share a url |
| Api.ReadBody | app/src/main/java/com/example/radiogarden/data/remote/RadioGardenApi.kt:24-27 | a body is read only from a 2xx response that has one; otherwise "API error: <code>" or "Empty response" |
| Api.StreamUrlFromResponse | app/src/main/java/com/example/radiogarden/data/remote/RadioGardenApi.kt:36-45 | success exactly for a redirect with `Location` (that header, unchanged) or a plain 2xx (the request url); otherwise "No redirect location" or "Stream resolution failed: <code>" |
| Api.StreamRuleOrderIrrelevant | app/src/main/java/com/example/radiogarden/data/remote/RadioGardenApi.kt:37-44 | testing for success before testing for a redirect gives the same outcome |
| Api.StreamFailureNamesCode | app/src/main/java/com/example/radiogarden/data/remote/RadioGardenApi.kt:42-43 | equal stream failures come from equal status codes |
| Api.GetChannelMetadata | app/src/main/java/com/example/radiogarden/data/remote/RadioGardenApi.kt:19-29 | one metadata request; a transport failure fails the call; otherwise status and body are checked before any decoding; a missing `data` or unparsable body fails |
| Api.ResolveStreamUrl | app/src/main/java/com/example/radiogarden/data/remote/RadioGardenApi.kt:31-46 | one stream request without redirects; a transport failure fails the call; otherwise the result is the `Location` value or the request url itself |
| Api.GetPlaceChannels | app/src/main/java/com/example/radiogarden/data/remote/RadioGardenApi.kt:48-58 | one place request; a transport failure fails the call; otherwise status and body are checked before any decoding |
| Classifier.SlashFrom | app/src/main/java/com/example/radiogarden/data/repository/RadioRepository.kt:90 | `[^/]+` stops at the first slash at or after its start, or at the end |
| Classifier.IdRunEnd | app/src/main/java/com/example/radiogarden/data/repository/RadioRepository.kt:90 | the greedy `[a-zA-Z0-9_]+` stops at the first non-identifier character |
| Classifier.CaptureAt | app/src/main/java/com/example/radiogarden/data/repository/RadioRepository.kt:90-91 | an attempt at one start captures exactly the id of the one match there, if any |
| Classifier.CaptureShapeUnique | app/src/main/java/com/example/radiogarden/data/repository/RadioRepository.kt:90-91 | a match at a given start has one separating slash and one capture |
| Classifier.FindFrom | app/src/main/java/com/example/radiogarden/data/repository/RadioRepository.kt:93-94 | the search from a start reports the capture of the leftmost match, or none when nothing matches further right |
| Classifier.LeftmostExtends | app/src/main/java/com/example/radiogarden/data/repository/RadioRepository.kt:93-94 | a failed attempt does not end the search |
| Classifier.Find | app/src/main/java/com/example/radiogarden/data/repository/RadioRepository.kt:93-97 | none exactly when the pattern matches nowhere; otherwise an identifier captured by the leftmost match |
| Classifier.CapturesAreIds | app/src/main/java/com/example/radiogarden/data/repository/RadioRepository.kt:90-91 | every capture is a non-empty run of `[a-zA-Z0-9_]` |
| Classifier.LeftmostMatchIsFound | app/src/main/java/com/example/radiogarden/data/repository/RadioRepository.kt:93-97 | a match that no earlier start has is the one reported |
| Classifier.ExtractChannelId | app/src/main/java/com/example/radiogarden/data/repository/RadioRepository.kt:93-94 | the id of the leftmost `/listen/<segment>/<id>` match, none when there is no match |
| Classifier.ExtractPlaceId | app/src/main/java/com/example/radiogarden/data/repository/RadioRepository.kt:96-97 | the id of the leftmost `/visit/<segment>/<id>` match, none when there is no match |
| Classifier.ExtractChannelIdFromPageUrl | app/src/main/java/com/example/radiogarden/data/repository/RadioRepository.kt:99-100 | the listen pattern applied to a page url, with the same guarantees |
| Classifier.Classify | app/src/main/java/com/example/radiogarden/data/repository/RadioRepository.kt:37-64 | direct stream first, then channel link, then place link; unrecognized exactly when none applies |
| Classifier.IsDirectStreamUrl | app/src/main/java/com/example/radiogarden/data/repository/RadioRepository.kt:102-106 | a direct stream url has an http or https scheme letter first and at least 7 characters; a url naming radio.garden in lower case is never one |
| Classifier.DomainSurvivesLowercase | app/src/main/java/com/example/radiogarden/data/repository/RadioRepository.kt:103-105 | lowercasing keeps an occurrence of "radio.garden" |
| Classifier.DirectStreamIgnoresCase | app/src/main/java/com/example/radiogarden/data/repository/RadioRepository.kt:102-106 | direct stream exactly when the url starts with "http://" or "https://" in any case and contains "radio.garden" in no case |
| Classifier.DirectStreamCaseInvariant | app/src/main/java/com/example/radiogarden/data/repository/RadioRepository.kt:102-106 | changing letter case never changes the direct-stream test |
| Classifier.ShapeShift | app/src/main/java/com/example/radiogarden/data/repository/RadioRepository.kt:90 | a match inside a suffix is a match of the whole string with the same capture |
| Classifier.NoMatchWithin | app/src/main/java/com/example/radiogarden/data/repository/RadioRepository.kt:90-91 | no match starts where a character the marker needs is missing |
| Classifier.CaseSensitiveExample | app/src/main/java/com/example/radiogarden/data/repository/RadioRepository.kt:90 | "/LISTEN/" does not match: the patterns are case-sensitive |
| Classifier.IdNotLastSegmentExample | app/src/main/java/com/example/radiogarden/data/repository/RadioRepository.kt:90-94 | "/listen/a/b/c" yields "b" |
| Classifier.SearchContinuesExample | app/src/main/java/com/example/radiogarden/data/repository/RadioRepository.kt:90-94 | "/listen/x/-/listen/a/b" yields "b": the first attempt fails and the search goes on |
| Classifier.DirectoryHostIsNotDirect | app/src/main/java/com/example/radiogarden/data/repository/RadioRepository.kt:102-106 | no url on https://radio.garden is a direct stream |
| Classifier.ChannelIdExample | app/src/main/java/com/example/radiogarden/data/repository/RadioRepository.kt:90-94 | ".../listen/some-name/mbAtEPnJ" yields "mbAtEPnJ" |
| Classifier.ChannelLinkExample | app/src/main/java/com/example/radiogarden/data/repository/RadioRepository.kt:37-45 | a radio.garden listen link is a channel link |
| Classifier.PlaceIdExample | app/src/main/java/com/example/radiogarden/data/repository/RadioRepository.kt:91-97 | ".../visit/some-city/XyZ123" yields "XyZ123" |
| Classifier.PlaceLinkExample | app/src/main/java/com/example/radiogarden/data/repository/RadioRepository.kt:37-48 | a radio.garden visit link is a place link |
| Classifier.UnrecognizedExample | app/src/main/java/com/example/radiogarden/data/repository/RadioRepository.kt:37-64 | "not a url" is unrecognized |
| Repository.ChannelBlocks | app/src/main/java/com/example/radiogarden/data/repository/RadioRepository.kt:50-51 | the kept blocks are exactly the content blocks tagged "channel" |
| Repository.Flatten | app/src/main/java/com/example/radiogarden/data/repository/RadioRepository.kt:52 | the flattened list holds exactly the items of the blocks |
| Repository.ChannelItems | app/src/main/java/com/example/radiogarden/data/repository/RadioRepository.kt:50-52 | block by block in order: all the items of a "channel" block, then those of the following blocks; none from other blocks |
| Repository.ChannelBlocksAppend | app/src/main/java/com/example/radiogarden/data/repository/RadioRepository.kt:50-51 | filtering keeps block order |
| Repository.FlattenAppend | app/src/main/java/com/example/radiogarden/data/repository/RadioRepository.kt:52 | flattening keeps block order |
| Repository.ChannelItemsAppend | app/src/main/java/com/example/radiogarden/data/repository/RadioRepository.kt:49-52 | the items of concatenated content are the items of each part, in order |
| Repository.ChannelItemsOfBlock | app/src/main/java/com/example/radiogarden/data/repository/RadioRepository.kt:50-52 | one block contributes all its items when tagged "channel", none otherwise |
| Repository.ChannelItemsMembership | app/src/main/java/com/example/radiogarden/data/repository/RadioRepository.kt:50-52 | an item is listed exactly when some channel block holds it |
| Repository.ResolveSingleChannel | app/src/main/java/com/example/radiogarden/data/repository/RadioRepository.kt:74-87 | metadata request, then stream request only after it succeeded; the station has the id, the metadata's title, place title, country title and website, and the resolved stream url |
| Repository.ResolvePlace | app/src/main/java/com/example/radiogarden/data/repository/RadioRepository.kt:47-62 | one place request; zero items fails, more than one gives exactly those items with no further request, one item resolves its extracted channel or fails |
| Repository.ResolveUrl | app/src/main/java/com/example/radiogarden/data/repository/RadioRepository.kt:37-65 | a direct stream comes back unchanged with no request; an unrecognized string fails with no request; a list has at least two items after exactly one request; every request is a client request |
| Repository.ResolveChannelFromItem | app/src/main/java/com/example/radiogarden/data/repository/RadioRepository.kt:67-72 | an unparsable page url fails with a message quoting it and no request; otherwise the station of the extracted id, and the cast to a single station always succeeds |
| Repository.SingleItemPlaceAgreesWithPick | app/src/main/java/com/example/radiogarden/data/repository/RadioRepository.kt:55-72 | a place with one channel item resolves, after its place request, to what picking that item gives |
| Repository.PlaceWithoutChannelBlocks | app/src/main/java/com/example/radiogarden/data/repository/RadioRepository.kt:49-54 | a place without channel blocks fails with "No channels found at this location" after one request |
| Repository.PlaceWithSeveralItems | app/src/main/java/com/example/radiogarden/data/repository/RadioRepository.kt:49-60 | a place with several items lists exactly those, after one request |
| Repository.PlaceWithOneItem | app/src/main/java/com/example/radiogarden/data/repository/RadioRepository.kt:53-59 | a place with one item makes the place request and then the channel's own requests |
| Repository.PlaceOneItemCalls | app/src/main/java/com/example/radiogarden/data/repository/RadioRepository.kt:55-58 | the place branch for one item issues the place request, then the metadata request |
| Repository.ItemFailureQuotesPageUrl | app/src/main/java/com/example/radiogarden/data/repository/RadioRepository.kt:68-69 | the follow-up's extraction failure message contains the page url |
| Repository.BareMetadataGivesEmptyTitles | app/src/main/java/com/example/radiogarden/data/repository/RadioRepository.kt:77-85 | metadata without optional keys yields a station with empty name, place, country and website |
| Repository.DirectlyServedChannel | app/src/main/java/com/example/radiogarden/data/remote/RadioGardenApi.kt:39-41 | a channel served directly gets ".../content/listen/<id>/channel.mp3" as its stream url |
| Repository.MetadataTransportFailureStops | app/src/main/java/com/example/radiogarden/data/repository/RadioRepository.kt:75-76 | a metadata call that fails in transport fails the resolution, and no stream request is sent |

## Left out

- Executing requests: the OkHttp clients, the lazily built client that does not follow redirects, and the IO dispatcher. A `Directory` stands in for the service.
- Api.GetChannelMetadata, Api.ResolveStreamUrl, Api.GetPlaceChannels: a transport failure (an `IOException`, a connect or read timeout) is one `Transport` value. The exception's own message, which the caller displays, comes from the platform and is not modelled.
- Parsing response text into JSON is left to an abstract parser. Type mismatches, null values and malformed text all become `Undecodable`. The serializer's exception messages are not modelled.
- `Directory.respond` is a function of the request, so the same request always gets the same answer. No operation sends the same request twice, so this assumption does not affect any single resolution.
- Text.LowerChar, Text.Lowercase: fold ASCII letters only, because Kotlin's `lowercase()` applies full Unicode case mapping. No non-ASCII character lowercases into "http://", "https://" or "radio.garden", so the direct-stream test is unaffected.
- Api.ResolveStreamUrl: returns the request url exactly as built. OkHttp's canonical form of a url (percent-encoding) is not modelled. The two agree for every id the classifier produces, because those ids use only `[a-zA-Z0-9_]`.
- Persistence is not part of this model: the station DAO, the Room database, the preferences store, and the repository's one-line delegations at RadioRepository.kt lines 29-35.
- The view model, the playback controller and all UI code are not part of this model.
