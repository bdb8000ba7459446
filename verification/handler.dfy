/**
 The per-event handler of index.js: the decision it takes for one event, with
 the platform calls cut away. A reply is the payload list handed to the reply
 call; a fetch is the download of a message's content into a named file, after
 which the reply is sent.
 */
module Handler {
  import opened Wrappers
  import opened Events
  import opened Replies
  import opened TestToken
  import opened Downloads

  /** The fixed greeting sent to a new friend ("thank you for adding us as a friend!"). */
  const Greeting: string := "お友だち追加ありがとうございます！"

  /** Postback data values produced by the date/time picker. */
  const PostbackSentinels: set<string> := {"DATE", "TIME", "DATETIME"}

  /** The reply text of a postback: the data, followed by its parameters for the picker sentinels. */
  function PostbackText(p: Postback): string {
    "Got postback: " + (if p.data in PostbackSentinels then p.data + "(" + p.params + ")" else p.data)
  }

  function HandleText(m: Message, token: string): Action {
    ReplyText(token, One(m.text))
  }

  function HandleLocation(m: Message, token: string): Action {
    Reply(token, [Location(m.title, m.address, m.latitude, m.longitude)])
  }

  function HandleSticker(m: Message, token: string): Action {
    Reply(token, [Sticker(m.packageId, m.stickerId)])
  }

  /** Image: platform content is downloaded and served back as both original and preview;
      external URLs are forwarded; any other provider leaves nothing to chain on and throws. */
  function HandleImage(m: Message, token: string, baseURL: string): Action {
    match m.contentProvider
    case None => Fail(Undefined("contentProvider"))
    case Some(p) =>
      if p.kind == "line" then
        var file := FileName(m.id, ImageExtension);
        var url := DownloadedUrl(baseURL, file);
        FetchThenReply(token, m.id, file, [Image(url, url)])
      else if p.kind == "external" then
        Reply(token, [Image(p.originalContentUrl, p.previewImageUrl)])
      else
        Fail(Undefined("getContent"))
  }

  /** Video: like an image, but a downloaded video gets the fixed placeholder preview. */
  function HandleVideo(m: Message, token: string, baseURL: string): Action {
    match m.contentProvider
    case None => Fail(Undefined("contentProvider"))
    case Some(p) =>
      if p.kind == "line" then
        var file := FileName(m.id, VideoExtension);
        FetchThenReply(token, m.id, file,
                       [Video(DownloadedUrl(baseURL, file), PublicUrl(baseURL, VideoPreviewName))])
      else if p.kind == "external" then
        Reply(token, [Video(p.originalContentUrl, p.previewImageUrl)])
      else
        Fail(Undefined("getContent"))
  }

  /** Audio: platform content is downloaded; every other provider is forwarded as external. */
  function HandleAudio(m: Message, token: string, baseURL: string): Action {
    match m.contentProvider
    case None => Fail(Undefined("contentProvider"))
    case Some(p) =>
      if p.kind == "line" then
        var file := FileName(m.id, AudioExtension);
        FetchThenReply(token, m.id, file, [Audio(DownloadedUrl(baseURL, file), m.duration)])
      else
        Reply(token, [Audio(p.originalContentUrl, m.duration)])
  }

  /** Dispatch of a message event on the message type. */
  function HandleMessage(m: Message, token: string, baseURL: string): Action {
    if m.kind == "text" then HandleText(m, token)
    else if m.kind == "image" then HandleImage(m, token, baseURL)
    else if m.kind == "video" then HandleVideo(m, token, baseURL)
    else if m.kind == "audio" then HandleAudio(m, token, baseURL)
    else if m.kind == "location" then HandleLocation(m, token)
    else if m.kind == "sticker" then HandleSticker(m, token)
    else Fail(UnknownMessage(m.kind))
  }

  /** The content file a media message of this kind is downloaded to. */
  function MediaFileName(m: Message): string {
    FileName(m.id, if m.kind == "image" then ImageExtension
                   else if m.kind == "video" then VideoExtension
                   else AudioExtension)
  }

  /** The handler's decision for one event. */
  function Decide(e: Event, baseURL: string): (r: Action)
    // a verification probe is only logged
    ensures IsTestToken(e.replyToken) ==> r == Log(TestHook)
    // every reply answers this event's own token, once, with exactly one payload
    ensures (r.Reply? || r.FetchThenReply?) ==> r.token == e.replyToken && |r.messages| == 1
    // only a media message hosted on the platform is fetched, into a file named after its id
    ensures r.FetchThenReply? ==>
              && e.kind == "message" && e.message.Some?
              && e.message.value.kind in MediaKinds
              && e.message.value.contentProvider.Some?
              && e.message.value.contentProvider.value.kind == "line"
              && r.messageId == e.message.value.id
              && r.fileName == MediaFileName(e.message.value)
  {
    if IsTestToken(e.replyToken) then Log(TestHook)
    else if e.kind == "message" then
      match e.message
      case None => Fail(Undefined("message"))
      case Some(m) => HandleMessage(m, e.replyToken, baseURL)
    else if e.kind == "follow" then ReplyText(e.replyToken, One(Greeting))
    else if e.kind == "unfollow" then Log(Unfollowed)
    else if e.kind == "join" then
      match e.source
      case None => Fail(Undefined("source"))
      case Some(s) => ReplyText(e.replyToken, One("Joined " + s.kind))
    else if e.kind == "leave" then Log(Left)
    else if e.kind == "postback" then
      match e.postback
      case None => Fail(Undefined("postback"))
      case Some(p) => ReplyText(e.replyToken, One(PostbackText(p)))
    else if e.kind == "beacon" then
      match e.beacon
      case None => Fail(Undefined("beacon"))
      case Some(b) => ReplyText(e.replyToken, One("Got beacon: " + b.hwid))
    else Fail(UnknownEvent(e.kind))
  }
}
