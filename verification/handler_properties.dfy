/**
 What the handler promises for each kind of event, stated over all events and
 base URLs.
 */
module HandlerProperties {
  import opened Wrappers
  import opened Events
  import opened Replies
  import opened TestToken
  import opened Downloads
  import opened Handler

  /** The event makes the handler throw synchronously, stated independently of the dispatch
      order: an unknown type, a missing object the handler reads a property of, or an image or
      video whose provider is neither `"line"` nor `"external"`. */
  predicate Throws(e: Event) {
    || e.kind !in EventKinds
    || (e.kind == "message" && MessageThrows(e.message))
    || (e.kind == "join" && e.source.None?)
    || (e.kind == "postback" && e.postback.None?)
    || (e.kind == "beacon" && e.beacon.None?)
  }

  predicate MessageThrows(message: Option<Message>) {
    || message.None?
    || message.value.kind !in MessageKinds
    || (message.value.kind in MediaKinds && message.value.contentProvider.None?)
    || (message.value.kind in {"image", "video"} && message.value.contentProvider.Some?
        && message.value.contentProvider.value.kind !in {"line", "external"})
  }

  /** An event is only logged as a test hook exactly when its reply token is a verification token. */
  lemma TestHookIff(e: Event, baseURL: string)
    ensures Decide(e, baseURL) == Log(TestHook) <==> IsTestToken(e.replyToken)
  {
  }

  /** The handler fails exactly when the event is not a test hook and throws. A failure is never a
      reply and never a fetch. */
  lemma FailsIff(e: Event, baseURL: string)
    ensures Decide(e, baseURL).Fail? <==> !IsTestToken(e.replyToken) && Throws(e)
  {
  }

  /** An unknown event type is an error naming that type. */
  lemma UnknownEventFails(e: Event, baseURL: string)
    requires !IsTestToken(e.replyToken)
    requires e.kind !in EventKinds
    ensures Decide(e, baseURL) == Fail(UnknownEvent(e.kind))
  {
  }

  /** An unknown message type on a message event is an error naming that type. */
  lemma UnknownMessageFails(e: Event, baseURL: string)
    requires !IsTestToken(e.replyToken)
    requires e.kind == "message" && e.message.Some? && e.message.value.kind !in MessageKinds
    ensures Decide(e, baseURL) == Fail(UnknownMessage(e.message.value.kind))
  {
  }

  /** A text message is echoed back verbatim as a single text payload. */
  lemma TextEchoed(e: Event, baseURL: string)
    requires !IsTestToken(e.replyToken)
    requires e.kind == "message" && e.message.Some? && e.message.value.kind == "text"
    ensures Decide(e, baseURL) == Reply(e.replyToken, [Text(e.message.value.text)])
    ensures TextsOf(Decide(e, baseURL).messages) == [e.message.value.text]
  {
  }

  /** A follow is answered with exactly the fixed greeting. */
  lemma FollowGreets(e: Event, baseURL: string)
    requires !IsTestToken(e.replyToken) && e.kind == "follow"
    ensures Decide(e, baseURL) == Reply(e.replyToken, [Text(Greeting)])
  {
  }

  /** A join is answered with the type of the joined source. */
  lemma JoinNamesSource(e: Event, baseURL: string)
    requires !IsTestToken(e.replyToken) && e.kind == "join" && e.source.Some?
    ensures Decide(e, baseURL) == Reply(e.replyToken, [Text("Joined " + e.source.value.kind)])
  {
  }

  /** A beacon is answered with its hardware id. */
  lemma BeaconNamesHwid(e: Event, baseURL: string)
    requires !IsTestToken(e.replyToken) && e.kind == "beacon" && e.beacon.Some?
    ensures Decide(e, baseURL) == Reply(e.replyToken, [Text("Got beacon: " + e.beacon.value.hwid)])
  {
  }

  /** Unfollow and leave are only logged: no reply and no fetch, whatever the token. */
  lemma UnfollowAndLeaveOnlyLog(e: Event, baseURL: string)
    requires e.kind == "unfollow" || e.kind == "leave"
    ensures Decide(e, baseURL).Log?
    ensures !IsTestToken(e.replyToken) ==>
              Decide(e, baseURL) == Log(if e.kind == "unfollow" then Unfollowed else Left)
  {
  }

  /** A postback is answered with its data; the serialized parameters are appended in
      parentheses exactly when the data is a date/time picker sentinel. */
  lemma PostbackReply(e: Event, baseURL: string)
    requires !IsTestToken(e.replyToken) && e.kind == "postback" && e.postback.Some?
    ensures Decide(e, baseURL).Reply? && |Decide(e, baseURL).messages| == 1
    ensures Decide(e, baseURL).messages[0].Text?
    ensures Decide(e, baseURL).messages[0].text == "Got postback: " + e.postback.value.data
            <==> e.postback.value.data !in PostbackSentinels
    ensures e.postback.value.data in PostbackSentinels ==>
              Decide(e, baseURL).messages[0].text
              == "Got postback: " + e.postback.value.data + "(" + e.postback.value.params + ")"
  {
  }

  /** Location and sticker replies copy the message's fields unchanged. */
  lemma LocationAndStickerCopied(e: Event, baseURL: string)
    requires !IsTestToken(e.replyToken) && e.kind == "message" && e.message.Some?
    ensures e.message.value.kind == "location" ==>
              var m := e.message.value;
              Decide(e, baseURL) == Reply(e.replyToken, [Location(m.title, m.address, m.latitude, m.longitude)])
    ensures e.message.value.kind == "sticker" ==>
              var m := e.message.value;
              Decide(e, baseURL) == Reply(e.replyToken, [Sticker(m.packageId, m.stickerId)])
  {
  }

  /** A platform-hosted image is fetched as `<id>.jpg` and served back as both original and preview. */
  lemma ImageFromPlatform(e: Event, baseURL: string)
    requires !IsTestToken(e.replyToken) && e.kind == "message" && e.message.Some?
    requires e.message.value.kind == "image"
    requires e.message.value.contentProvider.Some? && e.message.value.contentProvider.value.kind == "line"
    requires '/' !in e.message.value.id
    ensures var id := e.message.value.id;
            var url := baseURL + "/downloaded/" + id + ".jpg";
            Decide(e, baseURL) == FetchThenReply(e.replyToken, id, id + ".jpg", [Image(url, url)])
  {
    DownloadedUrlOfPlainId(baseURL, e.message.value.id, ImageExtension);
  }

  /** A platform-hosted video is fetched as `<id>.mp4` and served back with the fixed preview image. */
  lemma VideoFromPlatform(e: Event, baseURL: string)
    requires !IsTestToken(e.replyToken) && e.kind == "message" && e.message.Some?
    requires e.message.value.kind == "video"
    requires e.message.value.contentProvider.Some? && e.message.value.contentProvider.value.kind == "line"
    requires '/' !in e.message.value.id
    ensures var id := e.message.value.id;
            Decide(e, baseURL)
            == FetchThenReply(e.replyToken, id, id + ".mp4",
                              [Video(baseURL + "/downloaded/" + id + ".mp4", baseURL + "/downloaded/preview.png")])
  {
    DownloadedUrlOfPlainId(baseURL, e.message.value.id, VideoExtension);
    assert PublicUrl(baseURL, VideoPreviewName) == baseURL + "/downloaded/preview.png" by {
      assert DownloadedPrefix + VideoPreviewName == "/downloaded/preview.png";
    }
  }

  /** Platform-hosted audio is fetched as `<id>.m4a` and served back with the message's duration. */
  lemma AudioFromPlatform(e: Event, baseURL: string)
    requires !IsTestToken(e.replyToken) && e.kind == "message" && e.message.Some?
    requires e.message.value.kind == "audio"
    requires e.message.value.contentProvider.Some? && e.message.value.contentProvider.value.kind == "line"
    requires '/' !in e.message.value.id
    ensures var id := e.message.value.id;
            Decide(e, baseURL)
            == FetchThenReply(e.replyToken, id, id + ".m4a",
                              [Audio(baseURL + "/downloaded/" + id + ".m4a", e.message.value.duration)])
  {
    DownloadedUrlOfPlainId(baseURL, e.message.value.id, AudioExtension);
  }

  /** Externally hosted media is never fetched: its URLs are forwarded unchanged. Audio treats
      every provider but `"line"` this way. */
  lemma ExternalForwarded(e: Event, baseURL: string)
    requires !IsTestToken(e.replyToken) && e.kind == "message" && e.message.Some?
    requires e.message.value.contentProvider.Some?
    ensures var m := e.message.value;
            var p := m.contentProvider.value;
            p.kind == "external" && m.kind == "image" ==>
              Decide(e, baseURL) == Reply(e.replyToken, [Image(p.originalContentUrl, p.previewImageUrl)])
    ensures var m := e.message.value;
            var p := m.contentProvider.value;
            p.kind == "external" && m.kind == "video" ==>
              Decide(e, baseURL) == Reply(e.replyToken, [Video(p.originalContentUrl, p.previewImageUrl)])
    ensures var m := e.message.value;
            var p := m.contentProvider.value;
            p.kind != "line" && m.kind == "audio" ==>
              Decide(e, baseURL) == Reply(e.replyToken, [Audio(p.originalContentUrl, m.duration)])
  {
  }

  /** An image or video whose provider is neither `"line"` nor `"external"` fails and is never
      replied to. */
  lemma UnsupportedProviderFails(e: Event, baseURL: string)
    requires !IsTestToken(e.replyToken) && e.kind == "message" && e.message.Some?
    requires e.message.value.kind == "image" || e.message.value.kind == "video"
    requires e.message.value.contentProvider.Some?
    requires e.message.value.contentProvider.value.kind !in {"line", "external"}
    ensures Decide(e, baseURL) == Fail(Undefined("getContent"))
  {
  }

  /** Content is fetched exactly for media messages hosted on the platform. */
  lemma FetchIff(e: Event, baseURL: string)
    ensures Decide(e, baseURL).FetchThenReply? <==>
              && !IsTestToken(e.replyToken)
              && e.kind == "message" && e.message.Some?
              && e.message.value.kind in MediaKinds
              && e.message.value.contentProvider.Some?
              && e.message.value.contentProvider.value.kind == "line"
  {
  }

  /** The reply after a fetch links to the very file the content was downloaded to, and that
      link identifies the message. */
  lemma FetchedFileIsServed(e: Event, baseURL: string)
    requires Decide(e, baseURL).FetchThenReply?
    requires '/' !in Decide(e, baseURL).messageId
    ensures var r := Decide(e, baseURL);
            var payload := r.messages[0];
            && (payload.Image? || payload.Video? || payload.Audio?)
            && payload.originalContentUrl == PublicUrl(baseURL, r.fileName)
            && MessageIdOfUrl(baseURL, payload.originalContentUrl, r.fileName[|r.messageId|..]) == Some(r.messageId)
  {
    var r := Decide(e, baseURL);
    var m := e.message.value;
    var ext := if m.kind == "image" then ImageExtension else if m.kind == "video" then VideoExtension else AudioExtension;
    assert r.fileName == FileName(m.id, ext);
    if m.kind == "image" {
      assert r == HandleImage(m, e.replyToken, baseURL);
    } else if m.kind == "video" {
      assert r == HandleVideo(m, e.replyToken, baseURL);
    } else {
      assert r == HandleAudio(m, e.replyToken, baseURL);
    }
    assert r.messages[0].originalContentUrl == DownloadedUrl(baseURL, FileName(m.id, ext));
    DownloadedUrlOfPlainId(baseURL, m.id, ext);
    DownloadedUrlRoundTrip(baseURL, m.id, ext);
    assert FileName(m.id, ext)[|m.id|..] == ext;
  }
}
