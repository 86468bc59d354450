/** Scraping helpers for YouTube pages: cutting the embedded JSON out of a page, and turning
    a video renderer into a playable media item. JSON field lookups are done by a library
    and arrive here as their results. */
module YtApi {

  import opened Wrappers
  import opened Text

  /** A playable item: its title and its watch URL. (The declaring file is not part of this
      model; the fields are the two the helpers set.) */
  datatype MediaItem = MediaItem(name: string, url: string)

  const YT_DATA_LEFT: string := "var ytInitialData = "
  const YT_DATA_RIGHT: string := ";</script>"
  const WATCH_PREFIX: string := "https://youtube.com/watch?v="

  /** `FindJsonData`: the text from the `{` that follows the first `left + "{"` up to, not
      including, the first `right` after it. When `left + "{"` is absent, `Index` gives -1
      and the slice starts at `len(left) - 1`. A start outside the string, or a missing
      `right`, makes the slicing panic: that is `None`. */
  function FindJsonData(data: string, left: string, right: string): (r: Option<string>)
    ensures var start := Index(data, left + "{") + |left|;
            r.Some? <==> (0 <= start <= |data| && Index(data[start..], right) >= 0)
    ensures var start := Index(data, left + "{") + |left|;
            r.Some? ==> (0 <= start && HasPrefix(data[start..], r.value + right)
                         && (|right| > 0 ==> forall k :: !OccursAt(r.value, right, k)))
    ensures var start := Index(data, left + "{") + |left|;
            r.Some? ==> forall k :: 0 <= k < |r.value| ==> !OccursAt(data[start..], right, k)
    ensures Index(data, left + "{") >= 0 && r.Some? && |r.value| > 0 ==> r.value[0] == '{'
  {
    var i := Index(data, left + "{");
    var start := i + |left|;
    if start < 0 || start > |data| then None
    else
      var out := data[start..];
      var j := Index(out, right);
      if j < 0 then None
      else
        CutBeforeFirst(out, right, j);
        if i >= 0 then
          BraceAfterKey(data, left, i);
          Some(out[..j])
        else Some(out[..j])
  }

  /** The text before the first occurrence of `right` is followed by `right` and holds no
      occurrence of it. */
  lemma CutBeforeFirst(out: string, right: string, j: int)
    requires OccursAt(out, right, j) && forall k :: 0 <= k < j ==> !OccursAt(out, right, k)
    ensures HasPrefix(out, out[..j] + right)
    ensures |right| > 0 ==> forall k :: !OccursAt(out[..j], right, k)
  {
    var r := out[..j];
    assert out[..|r + right|] == r + right;
    forall k | 0 <= k && OccursAt(r, right, k) && |right| > 0
      ensures false
    {
      assert out[k..k + |right|] == r[k..k + |right|];
      assert OccursAt(out, right, k);
    }
  }

  /** Where `left + "{"` occurs, the text after `left` starts with `{`. */
  lemma BraceAfterKey(data: string, left: string, i: int)
    requires OccursAt(data, left + "{", i)
    ensures i + |left| < |data| && data[i + |left|] == '{'
  {
    var key := left + "{";
    assert data[i..i + |key|] == key;
    assert data[i..i + |key|][|left|] == data[i + |left|];
  }

  /** `FindYouTubeData`: the initial-data JSON of a watch page. */
  function FindYouTubeData(data: string): Option<string>
  {
    FindJsonData(data, YT_DATA_LEFT, YT_DATA_RIGHT)
  }

  /** A page laid out as `pre + left + json + right + post`, where `left + "{"` does not
      start inside `pre`, the JSON starts with `{`, and `right` first occurs right after
      the JSON, gives back exactly the JSON. */
  lemma FindJsonDataExtracts(pre: string, left: string, json: string, right: string, post: string)
    requires |json| > 0 && json[0] == '{'
    requires forall k :: 0 <= k < |pre| ==> !OccursAt(pre + left + json + right + post, left + "{", k)
    requires forall k :: 0 <= k < |json| ==> !OccursAt(json + right, right, k)
    ensures FindJsonData(pre + left + json + right + post, left, right) == Some(json)
  {
    KeyFound(pre, left, json, right, post);
    RightFound(json, right, post);
    FindJsonDataAt(pre + left + json + right + post, left, right, json + right + post, json);
  }

  /** The key `left + "{"` is found where the JSON starts, when it does not start earlier,
      and the text after `left` is the rest of the page. */
  lemma KeyFound(pre: string, left: string, json: string, right: string, post: string)
    requires |json| > 0 && json[0] == '{'
    requires forall k :: 0 <= k < |pre| ==> !OccursAt(pre + left + json + right + post, left + "{", k)
    ensures Index(pre + left + json + right + post, left + "{") == |pre|
    ensures (pre + left + json + right + post)[|pre| + |left|..] == json + right + post
  {
    var data := pre + left + json + right + post;
    var key := left + "{";
    assert data[|pre|..|pre| + |key|] == key;
    IndexAt(data, key, |pre|);
  }

  /** `right` is found right after the JSON when it does not occur earlier. */
  lemma RightFound(json: string, right: string, post: string)
    requires forall k :: 0 <= k < |json| ==> !OccursAt(json + right, right, k)
    ensures Index(json + right + post, right) == |json|
    ensures (json + right + post)[..|json|] == json
  {
    var out := json + right + post;
    assert out[|json|..|json| + |right|] == right;
    forall k | 0 <= k < |json|
      ensures !OccursAt(out, right, k)
    {
      assert !OccursAt(json + right, right, k);
      assert out[k..k + |right|] == (json + right)[k..k + |right|];
    }
    IndexAt(out, right, |json|);
  }

  /** Where the key and `right` are found, `FindJsonData` returns the text between them. */
  lemma FindJsonDataAt(data: string, left: string, right: string, rest: string, json: string)
    requires Index(data, left + "{") >= 0 && Index(data, left + "{") + |left| <= |data|
    requires data[Index(data, left + "{") + |left|..] == rest
    requires Index(rest, right) == |json| && rest[..|json|] == json
    ensures FindJsonData(data, left, right) == Some(json)
  {
  }

  /** On a watch page whose initial data is followed by the closing script marker, the
      initial data is what `FindYouTubeData` returns. */
  lemma FindYouTubeDataExtracts(pre: string, json: string, post: string)
    requires |json| > 0 && json[0] == '{'
    requires forall k :: 0 <= k < |pre| ==>
               !OccursAt(pre + YT_DATA_LEFT + json + YT_DATA_RIGHT + post, YT_DATA_LEFT + "{", k)
    requires forall k :: 0 <= k < |json| ==> !OccursAt(json + YT_DATA_RIGHT, YT_DATA_RIGHT, k)
    ensures FindYouTubeData(pre + YT_DATA_LEFT + json + YT_DATA_RIGHT + post) == Some(json)
  {
    FindJsonDataExtracts(pre, YT_DATA_LEFT, json, YT_DATA_RIGHT, post);
  }

  /** The id a watch URL names: what follows the watch prefix. */
  function WatchId(url: string): Option<string>
  {
    if HasPrefix(url, WATCH_PREFIX) then Some(url[|WATCH_PREFIX|..]) else None
  }

  /** `VideoRendererToMediaItem`, given what the JSON lookups of `videoId` and of the first
      title run returned ("" when a lookup fails, since its error is dropped): the title,
      and the watch URL of the video id, or of `fallbackId` when the id is empty. */
  function VideoRendererToMediaItem(videoId: string, title: string, fallbackId: string): (item: MediaItem)
    ensures item.name == title
    ensures WatchId(item.url) == Some(if |videoId| == 0 then fallbackId else videoId)
  {
    var id := if |videoId| == 0 then fallbackId else videoId;
    var url := WATCH_PREFIX + id;
    assert url[..|WATCH_PREFIX|] == WATCH_PREFIX;
    MediaItem(title, url)
  }
}
