/**
 Where platform-hosted content is stored and how it is served back: the file
 `<message id><extension>` in the download directory, published under
 `<base URL>/downloaded/<base name of that file>`.
 */
module Downloads {
  import opened Wrappers

  const ImageExtension: string := ".jpg"
  const VideoExtension: string := ".mp4"
  const AudioExtension: string := ".m4a"
  const MediaExtensions: set<string> := {ImageExtension, VideoExtension, AudioExtension}

  /** The static-serving prefix of the download directory. */
  const DownloadedPrefix: string := "/downloaded/"

  /** The fixed preview image replied for every platform-hosted video. */
  const VideoPreviewName: string := "preview.png"

  /** The name a message's content is downloaded to. */
  function FileName(messageId: string, extension: string): string {
    messageId + extension
  }

  /** The last component of a POSIX path that does not end in a separator: the longest
      suffix without `/`. */
  function Basename(path: string): (r: string)
    ensures '/' !in r
    ensures |r| <= |path| && r == path[|path| - |r|..]
    ensures |r| < |path| ==> path[|path| - |r| - 1] == '/'
    decreases |path|
  {
    if '/' !in path then path
    else
      var r := Basename(path[1..]);
      SuffixOfTail(path, r);
      r
  }

  /** A suffix of a path's tail that is the whole tail or follows a `/` is a suffix of the path
      that is preceded by a `/`, when the path has a `/` at all. */
  lemma SuffixOfTail(path: string, r: string)
    requires '/' in path && '/' !in r
    requires |r| <= |path| - 1 && r == path[1..][|path| - 1 - |r|..]
    requires |r| < |path| - 1 ==> path[1..][|path| - 1 - |r| - 1] == '/'
    ensures r == path[|path| - |r|..]
    ensures path[|path| - |r| - 1] == '/'
  {
    var tail := path[1..];
    assert tail[|tail| - |r|..] == path[|path| - |r|..];
    if |r| == |tail| {
      assert path == [path[0]] + r;
    } else {
      assert tail[|tail| - |r| - 1] == path[|path| - |r| - 1];
    }
  }

  /** The public URL of a file in the download directory. */
  function PublicUrl(baseURL: string, name: string): string {
    baseURL + DownloadedPrefix + name
  }

  /** The public URL of a downloaded file, built from its base name. */
  function DownloadedUrl(baseURL: string, path: string): string {
    PublicUrl(baseURL, Basename(path))
  }

  /** A name without separators is its own base name. */
  lemma BasenameOfPlainName(name: string)
    requires '/' !in name
    ensures Basename(name) == name
  {
  }

  /** A message id without separators keeps its download name whole in the public URL. */
  lemma DownloadedUrlOfPlainId(baseURL: string, messageId: string, extension: string)
    requires '/' !in messageId
    requires extension in MediaExtensions
    ensures DownloadedUrl(baseURL, FileName(messageId, extension)) == baseURL + "/downloaded/" + messageId + extension
  {
    assert '/' !in FileName(messageId, extension) by {
      forall i | 0 <= i < |FileName(messageId, extension)|
        ensures FileName(messageId, extension)[i] != '/'
      {
        if i >= |messageId| {
          assert FileName(messageId, extension)[i] == extension[i - |messageId|];
        }
      }
    }
    BasenameOfPlainName(FileName(messageId, extension));
  }

  /** Download names never collide: distinct (message id, media extension) pairs give distinct files. */
  lemma FileNameInjective(id1: string, ext1: string, id2: string, ext2: string)
    requires ext1 in MediaExtensions && ext2 in MediaExtensions
    requires FileName(id1, ext1) == FileName(id2, ext2)
    ensures id1 == id2 && ext1 == ext2
  {
    var f := FileName(id1, ext1);
    assert |ext1| == |ext2| == 4;
    assert |id1| == |id2|;
    assert id1 == f[..|id1|] == id2;
    assert ext1 == f[|id1|..] == ext2;
  }

  /** The message id a download URL was built from, when `url` is
      `<baseURL>/downloaded/<id><extension>`. */
  function MessageIdOfUrl(baseURL: string, url: string, extension: string): (r: Option<string>)
    ensures r.Some? ==> PublicUrl(baseURL, FileName(r.value, extension)) == url
  {
    var prefix := baseURL + DownloadedPrefix;
    if |prefix| + |extension| <= |url| && url[..|prefix|] == prefix && url[|url| - |extension|..] == extension
    then
      var id := url[|prefix|..|url| - |extension|];
      assert prefix + id + extension == url;
      Some(id)
    else None
  }

  /** The public URL of a downloaded file identifies the message whose content it holds. */
  lemma {:induction false} DownloadedUrlRoundTrip(baseURL: string, messageId: string, extension: string)
    requires '/' !in messageId
    requires extension in MediaExtensions
    ensures MessageIdOfUrl(baseURL, DownloadedUrl(baseURL, FileName(messageId, extension)), extension) == Some(messageId)
  {
    DownloadedUrlOfPlainId(baseURL, messageId, extension);
    var prefix := baseURL + DownloadedPrefix;
    var url := prefix + messageId + extension;
    assert url[..|prefix|] == prefix;
    assert url[|url| - |extension|..] == extension;
    assert url[|prefix|..|url| - |extension|] == messageId;
  }
}
