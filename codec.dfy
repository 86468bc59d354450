/** The audio pipeline: the ffmpeg command line, and the encoder that moves Ogg pages from a
    demux worker through a page queue to a pace worker that hands one Opus frame to the
    audio sink per tick.

    The two workers are goroutines in the Go code. Here each turn of either loop is one
    method, so any interleaving of the workers is a sequence of calls. The sink is
    represented by the log `trace` of the calls it receives. */
module Codec {

  import opened Wrappers
  import opened Bits
  import opened Text

  // ---------------------------------------------------------------------------
  // ffmpeg command line

  datatype OutputStream = OutputStream(number: int, config: string)

  /** The part of `Ffmpeg` that `buildArguments` reads; the process handles are left out. */
  datatype Ffmpeg = Ffmpeg(executable: string, sourceUrl: string, outputStreams: seq<OutputStream>)

  const ENCODER_STREAM_NUMBER: int := 1
  /** The encoder stream's configuration, `-c:a libopus -b:a 48K -vn -page_duration 20000 -f ogg`,
      written as its words joined by single spaces. */
  const ENCODER_WORDS: seq<string> := ["-c:a", "libopus", "-b:a", "48K", "-vn", "-page_duration", "20000", "-f", "ogg"]
  const ENCODER_CONFIG: string := Join(ENCODER_WORDS, ' ')

  /** What one output stream adds to the command line: its configuration split on single
      spaces, then its output pipe. */
  function StreamArguments(stream: OutputStream): seq<string>
  {
    Split(stream.config, ' ') + ["pipe:" + Itoa(stream.number)]
  }

  /** A stream's arguments are its configuration's words, which join back into the
      configuration, followed by the pipe named after its number. */
  lemma StreamArgumentsShape(stream: OutputStream)
    ensures var args := StreamArguments(stream);
            |args| == |Split(stream.config, ' ')| + 1
            && args[|args| - 1] == "pipe:" + Itoa(stream.number)
            && Join(args[..|args| - 1], ' ') == stream.config
  {
    JoinSplit(stream.config, ' ');
    var args := StreamArguments(stream);
    assert args[..|args| - 1] == Split(stream.config, ' ');
  }

  /** The arguments of all output streams, in list order. */
  function StreamsArguments(streams: seq<OutputStream>): seq<string>
  {
    if |streams| == 0 then []
    else StreamsArguments(streams[..|streams| - 1]) + StreamArguments(streams[|streams| - 1])
  }

  /** Appending the next stream's arguments to a command line that ends with the arguments
      of the streams before it gives one that ends with the arguments of one more stream. */
  lemma StreamsArgumentsStep(prefix: seq<string>, streams: seq<OutputStream>, i: nat)
    requires i < |streams|
    ensures prefix + StreamsArguments(streams[..i]) + StreamArguments(streams[i])
            == prefix + StreamsArguments(streams[..i + 1])
  {
    assert streams[..i + 1][..i] == streams[..i];
  }

  /** The whole command line: log level, input, then the output streams and nothing else. */
  function Arguments(ffmpeg: Ffmpeg): (args: seq<string>)
    ensures |args| >= 4 && args[..4] == ["-loglevel", "error", "-i", ffmpeg.sourceUrl]
  {
    ["-loglevel", "error", "-i", ffmpeg.sourceUrl] + StreamsArguments(ffmpeg.outputStreams)
  }

  /** `buildArguments`. */
  method BuildArguments(ffmpeg: Ffmpeg) returns (arguments: seq<string>)
    ensures arguments == Arguments(ffmpeg)
  {
    arguments := ["-loglevel", "error", "-i", ffmpeg.sourceUrl];
    var i := 0;
    while i < |ffmpeg.outputStreams|
      invariant 0 <= i <= |ffmpeg.outputStreams|
      invariant arguments == ["-loglevel", "error", "-i", ffmpeg.sourceUrl] + StreamsArguments(ffmpeg.outputStreams[..i])
    {
      var stream := ffmpeg.outputStreams[i];
      var streamArgs := Split(stream.config, ' ');
      streamArgs := streamArgs + ["pipe:" + Itoa(stream.number)];
      StreamsArgumentsStep(["-loglevel", "error", "-i", ffmpeg.sourceUrl], ffmpeg.outputStreams, i);
      assert streamArgs == StreamArguments(stream);
      arguments := arguments + streamArgs;
      i := i + 1;
    }
    assert ffmpeg.outputStreams[..i] == ffmpeg.outputStreams;
  }

  /** The number of spaces in `s`. */
  function Spaces(s: string): nat
  {
    if |s| == 0 then 0 else (if s[0] == ' ' then 1 else 0) + Spaces(s[1..])
  }

  /** A split on spaces has one more piece than the string has spaces. */
  lemma {:induction false} SplitCount(s: string)
    ensures |Split(s, ' ')| == Spaces(s) + 1
    decreases |s|
  {
    if |s| > 0 {
      SplitCount(s[1..]);
    }
  }

  /** Each stream adds its number of spaces plus two arguments. */
  function ArgumentCount(streams: seq<OutputStream>): nat
  {
    if |streams| == 0 then 0
    else ArgumentCount(streams[..|streams| - 1]) + Spaces(streams[|streams| - 1].config) + 2
  }

  /** The command line has four leading arguments plus, per stream, one more than the
      pieces of its configuration. */
  lemma {:induction false} ArgumentsCount(ffmpeg: Ffmpeg)
    ensures |Arguments(ffmpeg)| == 4 + ArgumentCount(ffmpeg.outputStreams)
  {
    StreamsArgumentsCount(ffmpeg.outputStreams);
  }

  lemma {:induction false} StreamsArgumentsCount(streams: seq<OutputStream>)
    ensures |StreamsArguments(streams)| == ArgumentCount(streams)
    decreases |streams|
  {
    if |streams| > 0 {
      StreamsArgumentsCount(streams[..|streams| - 1]);
      SplitCount(streams[|streams| - 1].config);
    }
  }

  /** The encoder's ffmpeg: one output stream, number 1, Opus at 48 kbit/s in Ogg pages
      of 20 ms. */
  function EncoderFfmpeg(executable: string, url: string): Ffmpeg
  {
    Ffmpeg(executable, url, [OutputStream(ENCODER_STREAM_NUMBER, ENCODER_CONFIG)])
  }

  /** The encoder's configuration splits back into its words. */
  lemma EncoderConfigWords()
    ensures Split(ENCODER_CONFIG, ' ') == ENCODER_WORDS
  {
    SplitJoin(ENCODER_WORDS, ' ');
  }

  /** The encoder's command line is exactly fourteen arguments ending in `pipe:1`. */
  lemma EncoderArguments(executable: string, url: string)
    ensures Arguments(EncoderFfmpeg(executable, url)) ==
              ["-loglevel", "error", "-i", url] + ENCODER_WORDS + ["pipe:1"]
    ensures |Arguments(EncoderFfmpeg(executable, url))| == 14
  {
    EncoderConfigWords();
    var stream := OutputStream(ENCODER_STREAM_NUMBER, ENCODER_CONFIG);
    assert [stream][..0] == [];
    assert "pipe:" + Itoa(1) == "pipe:1";
    assert StreamArguments(stream) == ENCODER_WORDS + ["pipe:1"];
    assert StreamsArguments([stream]) == StreamsArguments([]) + StreamArguments(stream);
    assert |ENCODER_WORDS| == 9;
  }

  // ---------------------------------------------------------------------------
  // The encoder

  /** An Ogg page: its payload and the granule position from its header (a uint64). */
  datatype Page = Page(data: seq<Byte>, granulePosition: nat)

  /** An entry of the page queue: a page, or the end marker (nil data and nil header). */
  datatype AudioFrame = PageFrame(page: Page) | EndOfAudio

  /** What `ParseNextPage` returned. */
  datatype ParseResult = Parsed(page: Page) | Eof | ParseFailed(error: string)

  /** A call on the `AudioSink`. */
  datatype SinkCall = OnBegin | OnFinished | OnStopped | OnFailed | SendOpusFrame(timestamp: U32, frame: seq<Byte>)

  /** How the pace worker ended, if it did. */
  datatype PaceExit = Running | Finished | Failed | Stopped

  const PAGE_QUEUE_CAPACITY: nat := 300000

  /** The sink call the pace worker makes for a queue entry: a page is sent with its
      granule position truncated to 32 bits, the end marker finishes. */
  function Delivery(frame: AudioFrame): (call: SinkCall)
    ensures frame.EndOfAudio? <==> call == OnFinished
    ensures frame.PageFrame? ==> call.SendOpusFrame? && call.frame == frame.page.data
                                 && call.timestamp == frame.page.granulePosition % 0x1_0000_0000
  {
    match frame
    case PageFrame(p) => SendOpusFrame(ToU32(p.granulePosition), p.data)
    case EndOfAudio => OnFinished
  }

  function Deliveries(frames: seq<AudioFrame>): (calls: seq<SinkCall>)
    ensures |calls| == |frames|
    ensures forall i :: 0 <= i < |frames| ==> calls[i] == Delivery(frames[i])
  {
    if |frames| == 0 then [] else Deliveries(frames[..|frames| - 1]) + [Delivery(frames[|frames| - 1])]
  }

  lemma DeliveriesSnoc(frames: seq<AudioFrame>, frame: AudioFrame)
    ensures Deliveries(frames + [frame]) == Deliveries(frames) + [Delivery(frame)]
  {
    assert (frames + [frame])[..|frames|] == frames;
  }

  /** The call, if any, that ends the pace worker's part of the trace. */
  function ExitCall(exit: PaceExit): seq<SinkCall>
  {
    match exit
    case Failed => [OnFailed]
    case Stopped => [OnStopped]
    case _ => []
  }

  /** The sink sees `OnBegin` first and never again. */
  lemma TraceBeginsOnce(taken: seq<AudioFrame>, exit: PaceExit)
    ensures var trace := [OnBegin] + Deliveries(taken) + ExitCall(exit);
            trace[0] == OnBegin && forall i :: 0 < i < |trace| ==> trace[i] != OnBegin
  {
    var trace := [OnBegin] + Deliveries(taken) + ExitCall(exit);
    forall i | 0 < i < |trace|
      ensures trace[i] != OnBegin
    {
      if i <= |taken| {
        assert trace[i] == Delivery(taken[i - 1]);
      }
    }
  }

  /** The state the two workers share, and the ghost history behind it: every entry the
      demux worker has pushed, every entry the pace worker has taken, and how the pace worker
      ended. */
  datatype Pipeline = Pipeline(
    started: bool, demuxRunning: bool, paceRunning: bool,
    pages: seq<AudioFrame>, trace: seq<SinkCall>,
    parsed: seq<AudioFrame>, taken: seq<AudioFrame>, exit: PaceExit)

  /** The queue is first in, first out; only the last entry pushed can be the end marker,
      and the demux worker stops once it is pushed; the trace is `OnBegin`, one call per
      entry taken, and the pace worker's exit call. */
  ghost predicate Consistent(p: Pipeline)
  {
    && p.taken + p.pages == p.parsed
    && |p.pages| <= PAGE_QUEUE_CAPACITY
    && (forall i :: 0 <= i < |p.parsed| - 1 ==> p.parsed[i].PageFrame?)
    && (p.demuxRunning ==> forall i :: 0 <= i < |p.parsed| ==> p.parsed[i].PageFrame?)
    && (!p.started ==> !p.demuxRunning && !p.paceRunning && p.parsed == [] && p.trace == [] && p.exit == Running)
    && (p.started ==> p.trace == [OnBegin] + Deliveries(p.taken) + ExitCall(p.exit))
    && (p.started ==> (p.paceRunning <==> p.exit == Running))
    && (p.exit == Finished <==> |p.taken| > 0 && p.taken[|p.taken| - 1] == EndOfAudio)
    && (p.exit == Finished ==> p.pages == [])
  }

  /** How the pace worker stands after handling `frame`, given the sink's answer. */
  function TickExit(frame: AudioFrame, sinkErr: Option<string>): PaceExit
  {
    if frame.EndOfAudio? then Finished else if sinkErr.Some? then Failed else Running
  }

  /** What one tick sends to the sink and how the pace worker stands afterwards. */
  lemma TickCalls(frame: AudioFrame, sinkErr: Option<string>)
    ensures var x := TickExit(frame, sinkErr);
            var calls := [Delivery(frame)] + ExitCall(x);
            && (frame.EndOfAudio? ==> x == Finished && calls == [OnFinished])
            && (frame.PageFrame? && sinkErr.None? ==>
                  x == Running && calls == [SendOpusFrame(ToU32(frame.page.granulePosition), frame.page.data)])
            && (frame.PageFrame? && sinkErr.Some? ==>
                  x == Failed && calls == [SendOpusFrame(ToU32(frame.page.granulePosition), frame.page.data), OnFailed])
  {
  }

  /** Taking the oldest queue entry moves it from the queue to the taken entries. */
  lemma TickQueue(taken: seq<AudioFrame>, pages: seq<AudioFrame>, parsed: seq<AudioFrame>)
    requires taken + pages == parsed && |pages| > 0
    ensures (taken + [pages[0]]) + pages[1..] == parsed && parsed[|taken|] == pages[0]
  {
    assert (taken + [pages[0]]) + pages[1..] == taken + pages;
  }

  /** The calls of one tick extend the trace of a running pace worker to the trace of the
      entries taken so far. */
  lemma {:induction false} TickTrace(trace: seq<SinkCall>, taken: seq<AudioFrame>, frame: AudioFrame, x: PaceExit)
    requires trace == [OnBegin] + Deliveries(taken) + ExitCall(Running)
    ensures trace + ([Delivery(frame)] + ExitCall(x)) == [OnBegin] + Deliveries(taken + [frame]) + ExitCall(x)
  {
    var tail := [Delivery(frame)] + ExitCall(x);
    assert trace == [OnBegin] + Deliveries(taken) by {
      assert ExitCall(Running) == [];
    }
    DeliveriesSnoc(taken, frame);
    assert [OnBegin] + Deliveries(taken + [frame]) == trace + [Delivery(frame)];
    assert trace + tail == (trace + [Delivery(frame)]) + ExitCall(x);
  }

  /** A tick keeps the pipeline consistent. */
  lemma TickKeeps(p: Pipeline, sinkErr: Option<string>)
    requires Consistent(p) && p.paceRunning && |p.pages| > 0
    ensures var frame := p.pages[0];
            var x := TickExit(frame, sinkErr);
            Consistent(p.(paceRunning := x == Running, pages := p.pages[1..],
                          trace := p.trace + ([Delivery(frame)] + ExitCall(x)),
                          taken := p.taken + [frame], exit := x))
  {
    var frame := p.pages[0];
    var x := TickExit(frame, sinkErr);
    var q := p.(paceRunning := x == Running, pages := p.pages[1..],
                trace := p.trace + ([Delivery(frame)] + ExitCall(x)),
                taken := p.taken + [frame], exit := x);
    assert p.exit == Running;
    TickQueue(p.taken, p.pages, p.parsed);
    TickTrace(p.trace, p.taken, frame, x);
    assert q.exit == Finished ==> q.pages == [] by {
      if frame.EndOfAudio? {
        assert |p.pages| == 1;
      }
    }
    assert q.exit == Finished <==> |q.taken| > 0 && q.taken[|q.taken| - 1] == EndOfAudio;
  }

  /** Pushing an entry keeps the pipeline consistent; pushing the end marker stops the
      demux worker. */
  lemma PushKeeps(p: Pipeline, frame: AudioFrame)
    requires Consistent(p) && p.demuxRunning && |p.pages| < PAGE_QUEUE_CAPACITY
    ensures Consistent(p.(demuxRunning := frame.PageFrame?, pages := p.pages + [frame], parsed := p.parsed + [frame]))
  {
    assert p.exit != Finished by {
      if |p.taken| > 0 {
        assert p.parsed[|p.taken| - 1] == p.taken[|p.taken| - 1];
      }
    }
    assert p.taken + (p.pages + [frame]) == p.parsed + [frame];
  }

  class Encoder {
    const ffmpeg: Ffmpeg
    /** Whether `stopChan` has been closed. */
    var stopClosed: bool
    var started: bool
    var demuxRunning: bool
    var paceRunning: bool
    /** `pageChan`, oldest first. */
    var pages: seq<AudioFrame>
    /** The calls the sink has received, in order. */
    var trace: seq<SinkCall>
    ghost var parsed: seq<AudioFrame>
    ghost var taken: seq<AudioFrame>
    ghost var exit: PaceExit

    ghost function State(): Pipeline
      reads this
    {
      Pipeline(started, demuxRunning, paceRunning, pages, trace, parsed, taken, exit)
    }

    ghost predicate Valid()
      reads this
    {
      Consistent(State())
    }

    /** `NewEncoder`: one output stream, number 1, with the Opus-in-Ogg configuration;
        nothing is running and the sink has seen nothing. The executable path comes from
        the configuration. */
    constructor (url: string, executable: string)
      ensures Valid()
      ensures ffmpeg == EncoderFfmpeg(executable, url)
      ensures !stopClosed && !started && !demuxRunning && !paceRunning && pages == [] && trace == []
    {
      ffmpeg := EncoderFfmpeg(executable, url);
      stopClosed := false;
      started := false;
      demuxRunning := false;
      paceRunning := false;
      pages := [];
      trace := [];
      parsed := [];
      taken := [];
      exit := Running;
    }

    /** `Start`: a failure to start ffmpeg or to open the Ogg stream is returned and the sink
        hears nothing; otherwise the sink gets `OnBegin` and both workers run. */
    method Start(ffmpegErr: Option<string>, oggErr: Option<string>) returns (err: Option<string>)
      requires Valid() && !started
      modifies this`started, this`demuxRunning, this`paceRunning, this`trace
      ensures Valid()
      ensures ffmpegErr.Some? ==> err == ffmpegErr
      ensures ffmpegErr.None? ==> err == oggErr
      ensures err.Some? ==> !started && trace == [] && !demuxRunning && !paceRunning
      ensures err.None? ==> started && trace == [OnBegin] && demuxRunning && paceRunning
    {
      if ffmpegErr.Some? {
        return ffmpegErr;
      }
      if oggErr.Some? {
        return oggErr;
      }
      started := true;
      trace := [OnBegin];
      demuxRunning := true;
      paceRunning := true;
      err := None;
    }

    /** One turn of the demux worker. A closed stop channel ends it; otherwise a parsed
        page is queued, end of stream queues the end marker and ends it, and any other
        error ends it with nothing queued. A full queue blocks, so there must be room. */
    method DemuxStep(parse: ParseResult)
      requires Valid() && demuxRunning
      requires !stopClosed && !parse.ParseFailed? ==> |pages| < PAGE_QUEUE_CAPACITY
      modifies this`demuxRunning, this`pages, this`parsed
      ensures Valid()
      ensures stopClosed ==> !demuxRunning && pages == old(pages)
      ensures !stopClosed && parse.Parsed? ==> demuxRunning && pages == old(pages) + [PageFrame(parse.page)]
      ensures !stopClosed && parse.Eof? ==> !demuxRunning && pages == old(pages) + [EndOfAudio]
      ensures !stopClosed && parse.ParseFailed? ==> !demuxRunning && pages == old(pages)
    {
      if stopClosed {
        demuxRunning := false;
        return;
      }
      match parse
      case Eof =>
        PushKeeps(State(), EndOfAudio);
        pages := pages + [EndOfAudio];
        parsed := parsed + [EndOfAudio];
        demuxRunning := false;
      case ParseFailed(_) =>
        demuxRunning := false;
      case Parsed(page) =>
        PushKeeps(State(), PageFrame(page));
        pages := pages + [PageFrame(page)];
        parsed := parsed + [PageFrame(page)];
    }

    /** One tick of the pace worker: it takes the oldest queue entry (waiting for one, so
        the queue must be non-empty). The end marker finishes the stream; a page goes to
        the sink with its granule position truncated to 32 bits, and a sink error makes the
        sink hear `OnFailed` and ends the worker. */
    method PaceTick(sinkErr: Option<string>)
      requires Valid() && paceRunning && |pages| > 0
      modifies this`paceRunning, this`pages, this`trace, this`taken, this`exit
      ensures Valid()
      ensures pages == old(pages[1..])
      ensures old(pages[0]).EndOfAudio? ==> !paceRunning && trace == old(trace) + [OnFinished]
      ensures old(pages[0]).PageFrame? ==>
                var page := old(pages[0]).page;
                var send := SendOpusFrame(page.granulePosition % 0x1_0000_0000, page.data);
                (sinkErr.None? ==> paceRunning && trace == old(trace) + [send])
                && (sinkErr.Some? ==> !paceRunning && trace == old(trace) + [send, OnFailed])
    {
      ghost var p := State();
      TickKeeps(p, sinkErr);
      var frame := pages[0];
      var calls: seq<SinkCall>;
      var running: bool;
      ghost var x: PaceExit;
      match frame {
        case EndOfAudio =>
          calls, running, x := [OnFinished], false, Finished;
        case PageFrame(page) =>
          calls, running, x := [SendOpusFrame(ToU32(page.granulePosition), page.data)], true, Running;
          if sinkErr.Some? {
            calls, running, x := calls + [OnFailed], false, Failed;
          }
      }
      TickCalls(frame, sinkErr);
      pages := pages[1..];
      trace := trace + calls;
      taken := taken + [frame];
      paceRunning := running;
      exit := x;
      assert State() == p.(paceRunning := x == Running, pages := p.pages[1..],
                           trace := p.trace + ([Delivery(frame)] + ExitCall(x)),
                           taken := p.taken + [frame], exit := x);
    }

    /** The pace worker sees the stop channel closed: the sink hears `OnStopped`. */
    method PaceStopped()
      requires Valid() && paceRunning && stopClosed
      modifies this`paceRunning, this`trace, this`exit
      ensures Valid()
      ensures !paceRunning && trace == old(trace) + [OnStopped] && pages == old(pages)
    {
      trace := trace + [OnStopped];
      paceRunning := false;
      exit := Stopped;
    }

    /** `Stop` closes the stop channel; closing it a second time panics. */
    method Stop() returns (outcome: Outcome)
      modifies this`stopClosed
      ensures old(stopClosed) ==> outcome.Crash? && stopClosed
      ensures !old(stopClosed) ==> outcome.Continue? && stopClosed
    {
      if stopClosed {
        return Crash("close of closed channel");
      }
      stopClosed := true;
      outcome := Continue;
    }
  }

  /** Once the stream has finished, every entry pushed reached the sink, once each and in
      order, the last being the end marker, and the queue is empty. */
  lemma FinishedDeliversAll(p: Pipeline)
    requires Consistent(p) && p.started && p.exit == Finished
    ensures p.pages == [] && p.taken == p.parsed
    ensures p.trace == [OnBegin] + Deliveries(p.parsed)
    ensures p.trace[|p.trace| - 1] == OnFinished
  {
    assert p.taken + [] == p.taken;
  }
}
