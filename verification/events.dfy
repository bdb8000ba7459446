/**
 The inbound side of the webhook: one event of the parsed request body, as the
 handler in index.js reads it.

 Events and messages are kept close to the JSON objects the platform sends:
 their type is a string tag, because the handler dispatches by comparing that
 string, and an object the handler dereferences (the message, the source, the
 postback, the beacon, the content provider) is an `Option`, because reading a
 property of a missing one throws a TypeError. Leaf values the handler only
 copies are always present.
 */
module Events {
  import opened Wrappers

  /** A latitude or longitude. The handler copies these floats and never computes with them. */
  type Coordinate = real

  /** Where a media message's binary content lives: `"line"` (on the platform, to be fetched)
      or `"external"` (already hosted at the given URLs); any other string is possible on the wire. */
  datatype ContentProvider = ContentProvider(kind: string, originalContentUrl: string, previewImageUrl: string)

  /** One inbound message. Only the fields of its own kind are meaningful. */
  datatype Message = Message(
    kind: string,
    id: string,
    text: string,
    title: string,
    address: string,
    latitude: Coordinate,
    longitude: Coordinate,
    packageId: string,
    stickerId: string,
    duration: int,
    contentProvider: Option<ContentProvider>)

  /** The sender descriptor; `kind` is `"user"`, `"group"` or `"room"`. */
  datatype Source = Source(kind: string)

  /** Postback data and the date/time picker parameters, the latter already serialized as JSON text. */
  datatype Postback = Postback(data: string, params: string)

  datatype Beacon = Beacon(hwid: string)

  /** One event of the batch. An absent reply token is written `""`: both are falsy to the handler. */
  datatype Event = Event(
    kind: string,
    replyToken: string,
    source: Option<Source>,
    message: Option<Message>,
    postback: Option<Postback>,
    beacon: Option<Beacon>)

  /** The event types the handler knows. */
  const EventKinds: set<string> := {"message", "follow", "unfollow", "join", "leave", "postback", "beacon"}

  /** The message types the handler knows. */
  const MessageKinds: set<string> := {"text", "image", "video", "audio", "location", "sticker"}

  /** The message types whose content comes from a content provider. */
  const MediaKinds: set<string> := {"image", "video", "audio"}
}
