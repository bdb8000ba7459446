/**
 The outbound side: the message payloads the handler hands to the platform's
 reply call, and the one decision the handler takes for an event.
 */
module Replies {
  import opened Events

  /** A reply payload, one per message kind the platform accepts as a reply. */
  datatype OutMsg =
    | Text(text: string)
    | Image(originalContentUrl: string, previewImageUrl: string)
    | Video(originalContentUrl: string, previewImageUrl: string)
    | Audio(originalContentUrl: string, duration: int)
    | Location(title: string, address: string, latitude: Coordinate, longitude: Coordinate)
    | Sticker(packageId: string, stickerId: string)

  /** Why an event is only logged. */
  datatype LogReason = TestHook | Unfollowed | Left

  /** What the handler throws. `Undefined(name)` is the TypeError of reading a property of the
      missing value `name`. */
  datatype Error =
    | UnknownEvent(eventKind: string)
    | UnknownMessage(messageKind: string)
    | Undefined(name: string)

  /** The outcome of handling one event. `FetchThenReply` first downloads the content of
      `messageId` into `fileName` (relative to the download directory), then replies. */
  datatype Action =
    | Log(reason: LogReason)
    | Fail(error: Error)
    | Reply(token: string, messages: seq<OutMsg>)
    | FetchThenReply(token: string, messageId: string, fileName: string, messages: seq<OutMsg>)

  /** The argument of the text-reply helper: a single string or a list of strings. */
  datatype Texts = One(text: string) | Many(texts: seq<string>) {
    /** The strings to send, a single string becoming a list of one. */
    function AsList(): seq<string> {
      match this
      case One(t) => [t]
      case Many(ts) => ts
    }
  }

  /** One text payload per string, in order. */
  function TextMessages(texts: seq<string>): (r: seq<OutMsg>)
    ensures |r| == |texts|
    ensures forall i :: 0 <= i < |texts| ==> r[i] == Text(texts[i])
  {
    if |texts| == 0 then [] else [Text(texts[0])] + TextMessages(texts[1..])
  }

  /** The texts carried by a list of payloads, skipping any that are not text. */
  function TextsOf(messages: seq<OutMsg>): (r: seq<string>)
    ensures |r| <= |messages|
  {
    if |messages| == 0 then []
    else if messages[0].Text? then [messages[0].text] + TextsOf(messages[1..])
    else TextsOf(messages[1..])
  }

  /** The text-reply helper: a reply on `token` with one text payload per string. */
  function ReplyText(token: string, texts: Texts): (r: Action)
    ensures r.Reply? && r.token == token
    ensures texts.One? ==> r.messages == [Text(texts.text)]
    ensures texts.Many? ==> |r.messages| == |texts.texts|
    ensures texts.Many? ==> forall i :: 0 <= i < |texts.texts| ==> r.messages[i] == Text(texts.texts[i])
  {
    Reply(token, TextMessages(texts.AsList()))
  }

  /** Reading the texts back from a list of text payloads gives the original strings. */
  lemma {:induction false} TextsOfTextMessages(texts: seq<string>)
    ensures TextsOf(TextMessages(texts)) == texts
    decreases |texts|
  {
    if |texts| > 0 {
      var ms := TextMessages(texts);
      assert ms[1..] == TextMessages(texts[1..]);
      TextsOfTextMessages(texts[1..]);
    }
  }

  /** The text-reply helper sends only text payloads, and exactly the given strings, in order. */
  lemma ReplyTextRoundTrip(token: string, texts: Texts)
    ensures forall i :: 0 <= i < |ReplyText(token, texts).messages| ==> ReplyText(token, texts).messages[i].Text?
    ensures TextsOf(ReplyText(token, texts).messages) == texts.AsList()
  {
    TextsOfTextMessages(texts.AsList());
  }
}
