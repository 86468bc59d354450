/** The yt-dlp front end: resolving a video to a direct stream URL and reading the tool's
    version. Running the tool is I/O: its output (or its error) is a parameter. URL parsing
    is a library call, passed in as a function. */
module YtDlp {

  import opened Wrappers
  import opened Text

  /** What the bot uses of a parsed URL: its re-serialised form and its `mime` query value
      ("" when absent). */
  datatype ParsedUrl = ParsedUrl(text: string, mime: string)

  const NO_VIDEO_ERROR: string := "could not resolve YouTube video"

  /** Whether a candidate carries audio: its `mime` query value starts with "audio". */
  predicate IsAudio(u: ParsedUrl)
  {
    HasPrefix(u.mime, "audio")
  }

  /** The lines of the output that parse, in order. */
  function Candidates(lines: seq<string>, parse: string -> Option<ParsedUrl>): (c: seq<ParsedUrl>)
    ensures |c| <= |lines|
  {
    if |lines| == 0 then []
    else
      var rest := Candidates(lines[..|lines| - 1], parse);
      match parse(lines[|lines| - 1])
      case Some(u) => rest + [u]
      case None => rest
  }

  /** The position of the first audio candidate, or |c| when there is none. */
  function FirstAudio(c: seq<ParsedUrl>): (k: nat)
    ensures k <= |c|
    ensures forall i :: 0 <= i < k ==> !IsAudio(c[i])
    ensures k < |c| ==> IsAudio(c[k])
  {
    if |c| == 0 || IsAudio(c[0]) then 0 else 1 + FirstAudio(c[1..])
  }

  /** The URL `GetStreamUrl` settles on for a tool output: none without candidates, the only
      one, or else the first audio candidate, falling back to the first candidate. */
  function StreamUrl(output: string, parse: string -> Option<ParsedUrl>): Result<string>
  {
    var c := Candidates(Split(output, '\n'), parse);
    if |c| == 0 then Err(NO_VIDEO_ERROR)
    else if |c| == 1 then Ok(c[0].text)
    else if FirstAudio(c) < |c| then Ok(c[FirstAudio(c)].text)
    else Ok(c[0].text)
  }

  /** `GetStreamUrl`: a tool failure is returned as is; otherwise the output's lines are
      parsed and one candidate is chosen. */
  method GetStreamUrl(run: Result<string>, parse: string -> Option<ParsedUrl>) returns (r: Result<string>)
    ensures run.Err? ==> r == Err(run.error)
    ensures run.Ok? ==> r == StreamUrl(run.value, parse)
  {
    if run.Err? {
      return Err(run.error);
    }
    var urls := Split(run.value, '\n');
    var validUrls: seq<ParsedUrl> := [];
    var i := 0;
    while i < |urls|
      invariant 0 <= i <= |urls|
      invariant validUrls == Candidates(urls[..i], parse)
    {
      var urlObj := parse(urls[i]);
      assert urls[..i + 1][..i] == urls[..i];
      if urlObj.Some? {
        validUrls := validUrls + [urlObj.value];
      }
      i := i + 1;
    }
    assert urls[..i] == urls;
    if |validUrls| == 0 {
      return Err(NO_VIDEO_ERROR);
    } else if |validUrls| == 1 {
      return Ok(validUrls[0].text);
    }
    var k := 0;
    while k < |validUrls|
      invariant 0 <= k <= |validUrls|
      invariant forall j :: 0 <= j < k ==> !IsAudio(validUrls[j])
    {
      if HasPrefix(validUrls[k].mime, "audio") {
        assert k == FirstAudio(validUrls);
        return Ok(validUrls[k].text);
      }
      k := k + 1;
    }
    r := Ok(validUrls[0].text);
  }

  /** The line each candidate comes from: candidate k is what line `o[k]` parses to, and the
      lines are taken in increasing order, so candidates keep the order of their lines. */
  function CandidateLines(lines: seq<string>, parse: string -> Option<ParsedUrl>): (o: seq<nat>)
    ensures |o| == |Candidates(lines, parse)|
    ensures forall k :: 0 <= k < |o| ==> o[k] < |lines| && parse(lines[o[k]]) == Some(Candidates(lines, parse)[k])
    ensures forall k, l :: 0 <= k < l < |o| ==> o[k] < o[l]
  {
    if |lines| == 0 then []
    else
      var init := lines[..|lines| - 1];
      var rest := CandidateLines(init, parse);
      assert forall k :: 0 <= k < |rest| ==> lines[rest[k]] == init[rest[k]];
      if parse(lines[|lines| - 1]).Some? then rest + [|lines| - 1] else rest
  }

  /** A line is a candidate exactly when it parses. */
  lemma {:induction false} CandidatesAreParsedLines(lines: seq<string>, parse: string -> Option<ParsedUrl>)
    ensures forall u :: u in Candidates(lines, parse) <==> exists i :: 0 <= i < |lines| && parse(lines[i]) == Some(u)
  {
    if |lines| > 0 {
      var init := lines[..|lines| - 1];
      CandidatesAreParsedLines(init, parse);
      forall u | u in Candidates(lines, parse)
        ensures exists i :: 0 <= i < |lines| && parse(lines[i]) == Some(u)
      {
        if u in Candidates(init, parse) {
          var i :| 0 <= i < |init| && parse(init[i]) == Some(u);
          assert lines[i] == init[i];
        }
      }
      forall u | exists i :: 0 <= i < |lines| && parse(lines[i]) == Some(u)
        ensures u in Candidates(lines, parse)
      {
        var i :| 0 <= i < |lines| && parse(lines[i]) == Some(u);
        if i < |init| {
          assert init[i] == lines[i];
        }
      }
    }
  }

  /** The chosen URL comes from a line of the output that parses; with several candidates
      it is the first audio one when there is one, and the first one otherwise. */
  lemma StreamUrlChoice(output: string, parse: string -> Option<ParsedUrl>)
    ensures var c := Candidates(Split(output, '\n'), parse);
            var r := StreamUrl(output, parse);
            && (r.Err? <==> |c| == 0)
            && (r.Ok? ==> exists u :: (u in c && u.text == r.value
                                      && exists i :: 0 <= i < |Split(output, '\n')| && parse(Split(output, '\n')[i]) == Some(u)))
            && (|c| > 1 && (exists u :: u in c && IsAudio(u)) ==>
                  exists k :: 0 <= k < |c| && IsAudio(c[k]) && r == Ok(c[k].text)
                              && forall j :: 0 <= j < k ==> !IsAudio(c[j]))
            && (|c| > 1 && (forall u :: u in c ==> !IsAudio(u)) ==> r == Ok(c[0].text))
  {
    var lines := Split(output, '\n');
    var c := Candidates(lines, parse);
    CandidatesAreParsedLines(lines, parse);
    if |c| > 1 && exists u :: u in c && IsAudio(u) {
      var u :| u in c && IsAudio(u);
      var m :| 0 <= m < |c| && c[m] == u;
      assert FirstAudio(c) <= m;
    }
    if |c| > 0 {
      var r := StreamUrl(output, parse);
      var k := if |c| > 1 && FirstAudio(c) < |c| then FirstAudio(c) else 0;
      assert r == Ok(c[k].text);
      assert c[k] in c;
    }
  }

  /** `GetVersion`: the tool's output with surrounding white space removed, and the tool's
      error; a failed run yields "" and the error. */
  function GetVersion(run: Result<string>): (r: (string, Option<string>))
    ensures run.Err? ==> r == ("", Some(run.error))
    ensures run.Ok? ==> r.1.None?
                        && (exists i, j :: TrimmedSlice(run.value, r.0, i, j))
                        && (|r.0| > 0 ==> !IsSpace(r.0[0]) && !IsSpace(r.0[|r.0| - 1]))
  {
    match run
    case Err(e) => (TrimSpace(""), Some(e))
    case Ok(ver) => (TrimSpace(ver), None)
  }
}
