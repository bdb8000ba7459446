# LINE bot webhook handler, modelled in Dafny

The repository is a webhook receiver for a LINE chat bot (`index.js`). The
platform delivers a batch of events to `POST /linebot`. For each event the
handler picks one of four outcomes. It only logs the event. It throws an
error. It replies with message payloads on the event's reply token. Or it first
downloads a media message's content by message id and then replies with links
to the downloaded file. The endpoint answers 200 when every event was handled
and 500 otherwise.

This project models that decision as pure functions over immutable data and
proves what each branch produces.

- `Events` (events.dfy): an inbound event as a JSON-like record. Its type is a
  string tag, because the handler compares strings. Sub-objects that the handler
  dereferences (message, source, postback, beacon, content provider) are
  `Option`s, because reading a property of a missing one throws.
- `Replies` (replies.dfy): reply payloads, the `Action` a handler decides on,
  and the text-reply helper `replyText`.
- `TestToken` (test_token.dfy): the verification-probe test `^(.)\1*$` on the
  reply token.
- `Downloads` (downloads.dfy): download file names, `path.basename`, and the
  public URL of a downloaded file.
- `Handler` (handler.dfy): `Decide(event, baseURL)`, the whole `handleEvent`
  switch and the per-message handlers.
- `HandlerProperties` (handler_properties.dfy): one lemma per branch, plus
  if-and-only-if characterisations of failing and fetching.
- `Webhook` (webhook.dfy): the status of one delivery.

Modelling choices:
- A missing reply token is written `""`. Both values are falsy to the handler,
  and neither matches the pattern.
- A character of a string stands for one UTF-16 code unit, so only strings of
  characters in the Basic Multilingual Plane are represented faithfully. In the
  pattern, `.` matches any character except `\n`, `\r`, U+2028 and U+2029.
- Postback parameters are carried as their already-serialized JSON text.
- Location and sticker payloads are handed to the reply call as a single
  object. The model writes them as a one-element list, which is how the
  platform SDK treats a single message.
- The outcome of the platform calls is a parameter `callsSucceed(i)` for the
  i-th event of the batch.

Behaviour of the code worth knowing:
- For an image or video whose content provider is neither `"line"` nor
  `"external"`, `getContent` stays undefined, so `getContent.then` throws a
  TypeError at once (index.js:173, index.js:202).
- Every throw of the handler happens inside `req.body.events.map(handleEvent)`
  (index.js:46), outside the promise chain. Express's error handler therefore
  answers 500, and the events after the throwing one are never handled.
  Events before it have already started their calls.
- A postback reply always starts with `"Got postback: "`. For data `DATE` the
  reply text is `Got postback: DATE(<params>)`.

## Model

| member | source | states |
|---|---|---|
| Replies.ReplyText | index.js:117-123 | a single string becomes exactly one text payload; a list becomes one text payload per element, same order, text unchanged; the reply uses the given token |
| Replies.TextMessages | index.js:121 | each string becomes a text payload at the same position, and the list keeps its length |
| Replies.ReplyTextRoundTrip | index.js:117-123 | the helper sends only text payloads, and reading their texts back yields exactly the strings it was given |
| TestToken.AllSameMeaning | index.js:56 | the recursive check `(.)\1*` accepts a string exactly when every character equals the first |
| TestToken.TestTokenMatchesPattern | index.js:56 | the token test accepts exactly the strings of one or more copies of one non-line-terminator character, so the empty token never matches |
| Downloads.Basename | index.js:165 | the base name is the longest suffix without a separator: it contains no `/`, and it is the whole path or is preceded by `/` |
| Downloads.BasenameOfPlainName | index.js:165 | a name without separators is its own base name |
| Downloads.DownloadedUrlOfPlainId | index.js:160-166 | for an id without separators, the public URL is `baseURL + "/downloaded/" + id + extension` |
| Downloads.FileNameInjective | index.js:160 | distinct (message id, extension) pairs, with the extensions `.jpg`, `.mp4` and `.m4a` of index.js:160/190/219, never share a download name `<id><extension>` |
| Downloads.DownloadedUrlRoundTrip | index.js:165 | the public URL of a downloaded file gives back the message id it was built from |
| Handler.Decide | index.js:55-113 | a verification token is only logged; every reply answers the event's own token with one payload; a fetch happens only for a platform-hosted media message, keyed by its id, into `<id><extension>` |
| HandlerProperties.TestHookIff | index.js:56-58 | an event is logged as a test hook exactly when its token is a verification token, whatever the event or message type |
| HandlerProperties.FailsIff | index.js:60-113 | the handler fails exactly when the token is not a verification token and the event has an unknown type, lacks an object it reads, or is an image/video with an unsupported provider; a failure is never a reply |
| HandlerProperties.UnknownEventFails | index.js:110-112 | an unknown event type yields an error naming it, never a reply |
| HandlerProperties.UnknownMessageFails | index.js:83-85 | an unknown message type yields an error naming it, never a reply |
| HandlerProperties.TextEchoed | index.js:125-128 | a text message is echoed back as one text payload with the same text |
| HandlerProperties.FollowGreets | index.js:88-89 | a follow is answered with exactly the fixed greeting |
| HandlerProperties.JoinNamesSource | index.js:94-95 | a join is answered with `"Joined " + source.type` |
| HandlerProperties.BeaconNamesHwid | index.js:108-109 | a beacon is answered with `"Got beacon: " + hwid` |
| HandlerProperties.UnfollowAndLeaveOnlyLog | index.js:90-98 | unfollow and leave are only logged: no reply, no fetch |
| HandlerProperties.PostbackReply | index.js:100-106 | the reply is `"Got postback: " + data`, and `"(" + params + ")"` is appended exactly when data is DATE, TIME or DATETIME |
| HandlerProperties.LocationAndStickerCopied | index.js:130-154 | location and sticker replies copy title, address, coordinates, package id and sticker id unchanged |
| HandlerProperties.ImageFromPlatform | index.js:156-168 | a platform-hosted image is fetched as `<id>.jpg`, and both original and preview are `baseURL + "/downloaded/" + id + ".jpg"` |
| HandlerProperties.VideoFromPlatform | index.js:186-197 | a platform-hosted video is fetched as `<id>.mp4`, with the fixed preview `baseURL + "/downloaded/preview.png"` |
| HandlerProperties.AudioFromPlatform | index.js:215-226 | platform-hosted audio is fetched as `<id>.m4a` and replied with the message's duration unchanged |
| HandlerProperties.ExternalForwarded | index.js:169-241 | an external image or video, and audio from any provider but `"line"`, is replied with the provider's URLs unchanged and no fetch |
| HandlerProperties.UnsupportedProviderFails | index.js:169-183 | an image or video whose provider is neither `"line"` nor `"external"` fails |
| HandlerProperties.FetchIff | index.js:159-228 | content is fetched exactly for image, video and audio messages whose provider is `"line"` |
| HandlerProperties.FetchedFileIsServed | index.js:162-166 | after a fetch, the reply links to the public URL of the very file downloaded, and that URL identifies the message |
| Webhook.Started | index.js:45-46 | the handled events are the longest prefix of the batch with no throwing event, each with its own decision |
| Webhook.Respond | index.js:41-51 | a body without an events array gets 500 and nothing is handled; the status is 200 exactly when no event throws and every event's outbound calls succeed (logging always does) |
| Webhook.EmptyBatchAcknowledged | index.js:45-47 | an empty batch gets 200 and nothing is handled |
| Webhook.ProbesAcknowledged | index.js:45-57 | a batch of verification probes gets 200 whatever the platform does, and only test-hook logging happens |
| Webhook.FailureStopsBatch | index.js:45-51 | one throwing event fails the batch, and no event from it onwards is handled |

## Left out

- The Express server, its routes, static serving and `app.listen` (index.js:20-32, index.js:255-258). This is HTTP plumbing.
- LINE SDK client construction, signature verification by `line.middleware`, and the reply call itself (index.js:11-15, index.js:35). These are foreign library calls. A reply is modelled as the payload handed over.
- The body of `downloadContent` (index.js:244-253): streaming, file writes and stream errors. This is I/O. Its success or failure is folded into `callsSucceed`, together with the reply call's.
- The `Promise.all` fan-out (index.js:45-51) is modelled sequentially, by its resulting status only. The timing of the 500 answer is not modelled.
- The log output of `console.log`, of the test-hook message and of the request's `destination` (index.js:36-39), and `JSON.stringify`. The `destination` field is not modelled, since it is only logged. Postback parameters are carried as their serialized text.
- Latitude and longitude are carried as `real` values that are only copied, not as IEEE floats.
- `path.join` over `__dirname` and the download directory. The download file name is `<id><extension>`, relative to that directory. `Basename` models `path.basename` for POSIX paths that do not end in a separator; path normalisation does not change the last component of these names.
- The unused preview path of index.js:161 is not modelled, because nothing reads it.
- Missing leaf fields (text, title, hwid, data, URLs, source type, duration) are not modelled. The handler only interpolates or copies them into the payload (`undefined`), so the fields are always present.
- A reply token that is present but not a string is not modelled; `match` would throw on it.
- Environment configuration: the base URL is a parameter.
- TestToken.TestTokenMatchesPattern: does not cover tokens with characters outside the Basic Multilingual Plane. A Dafny `char` cannot hold a lone surrogate, so such a character stands for one unit in the model where JavaScript sees two. For example, the model accepts two copies of U+1F600 as a test token, but the pattern without the `u` flag rejects them.
- Downloads.FileNameInjective: is about the name `<id><extension>`, not the file on disk. For an id that contains `/`, `path.join` normalises the path, so `"./7"` and `"7"` both write `downloaded/7.jpg`. The name equals the written file only for ids without a separator, the case the other download lemmas require.
