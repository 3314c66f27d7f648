/** MediaMuxerWrapper: two encoder slots and two counters that decide when the muxer is
    really started and stopped. The muxer and the handler are outside the model; the calls
    made on them are logged. */
module MediaMuxerSpec {
  import opened Wrappers

  datatype EncoderKind = VideoEncoder | AudioEncoder | OtherEncoder

  /** An encoder handed to addEncoder, by identity and class. */
  datatype Encoder = Encoder(id: nat, kind: EncoderKind)

  /** Calls on the MediaMuxer, the handler and the encoders. */
  datatype Effect =
    | MuxerStart | MuxerStop | MuxerRelease | MuxerWriteSample(track: int)
    | OnMuxerStarted(path: string) | OnMuxerStopped(path: string)
    | EncoderPrepare(encoder: Encoder) | EncoderStartRecording(encoder: Encoder)
    | EncoderStopRecording(encoder: Encoder)

  /** The fields of the wrapper (hasHandler: whether a VideoRecorderHandler was given). */
  datatype Muxer = Muxer(outputPath: string, hasHandler: bool, encoderCount: int, startedCount: int,
                         isStarted: bool, video: Option<Encoder>, audio: Option<Encoder>)

  /** A new state with the calls made on the way. */
  datatype Next = Next(state: Muxer, calls: seq<Effect>)

  function CallIf(c: bool, e: Effect): seq<Effect> {
    if c then [e] else []
  }

  /** How many slots hold an encoder. */
  function Slots(m: Muxer): int {
    (if m.video.Some? then 1 else 0) + (if m.audio.Some? then 1 else 0)
  }

  /** The constructor: an absent or empty path is rejected. */
  function New(output: Option<string>, hasHandler: bool): (r: Result<Muxer>)
    ensures r.Throws? <==> output.None? || |output.value| == 0
    ensures r.Ok? ==> r.value == Muxer(output.value, hasHandler, 0, 0, false, None, None)
  {
    if output.None? || |output.value| == 0 then Throws(IllegalArgumentException("output must not null"))
    else Ok(Muxer(output.value, hasHandler, 0, 0, false, None, None))
  }

  /** prepare and startRecording: the video encoder first, then the audio one. */
  function ForEncoders(m: Muxer, call: Encoder -> Effect): seq<Effect> {
    (if m.video.Some? then [call(m.video.value)] else []) + (if m.audio.Some? then [call(m.audio.value)] else [])
  }

  function PrepareCalls(m: Muxer): seq<Effect> {
    ForEncoders(m, e => EncoderPrepare(e))
  }

  function StartRecordingCalls(m: Muxer): seq<Effect> {
    ForEncoders(m, e => EncoderStartRecording(e))
  }

  /** stopRecording: both encoders are told to stop and both slots are emptied. */
  function StopRecording(m: Muxer): Next {
    Next(m.(video := None, audio := None), ForEncoders(m, e => EncoderStopRecording(e)))
  }

  /** addEncoder: one video and one audio encoder at most; anything else is refused. */
  function AddEncoder(m: Muxer, encoder: Option<Encoder>): Result<Muxer> {
    if encoder.None? || encoder.value.kind == OtherEncoder then Throws(IllegalArgumentException("unsupported encoder"))
    else if encoder.value.kind == VideoEncoder && m.video.Some? then Throws(IllegalArgumentException("Video encoder already added."))
    else if encoder.value.kind == AudioEncoder && m.audio.Some? then Throws(IllegalArgumentException("Video encoder already added."))
    else
      var t := if encoder.value.kind == VideoEncoder then m.(video := encoder) else m.(audio := encoder);
      Ok(t.(encoderCount := Slots(t)))
  }

  /** start's result: the new state, the calls, and isStarted (or the exception thrown when
      no handler was given, after the muxer has started). */
  datatype Started = Started(state: Muxer, calls: seq<Effect>, result: Result<bool>)

  /** Whether this start is the one that completes the set. */
  predicate CompletesStart(m: Muxer) {
    m.encoderCount > 0 && m.startedCount + 1 == m.encoderCount
  }

  function Start(m: Muxer): Started {
    var c := CompletesStart(m);
    var t := m.(startedCount := m.startedCount + 1, isStarted := m.isStarted || c);
    Started(t, CallIf(c, MuxerStart) + CallIf(c && m.hasHandler, OnMuxerStarted(m.outputPath)),
            if c && !m.hasHandler then Throws(NullPointerException) else Ok(t.isStarted))
  }

  /** Whether this stop is the one that shuts the muxer. */
  predicate CompletesStop(m: Muxer) {
    m.encoderCount > 0 && m.startedCount - 1 <= 0
  }

  /** stop: exceptions from the muxer's stop and release are caught; the shut-down happens
      whether or not they throw, so they are not inputs here. */
  function Stop(m: Muxer): Next {
    var c := CompletesStop(m);
    Next(m.(startedCount := m.startedCount - 1, isStarted := m.isStarted && !c),
         CallIf(c, MuxerStop) + CallIf(c && m.hasHandler, OnMuxerStopped(m.outputPath)) + CallIf(c, MuxerRelease))
  }

  /** addTrack: refused once started; otherwise the muxer's track index is returned. */
  function AddTrack(m: Muxer, trackIndex: int): (r: Result<int>)
    ensures r.Throws? <==> m.isStarted
    ensures r.Throws? ==> r.error == IllegalStateException("muxer already started")
    ensures r.Ok? ==> r.value == trackIndex
  {
    if m.isStarted then Throws(IllegalStateException("muxer already started")) else Ok(trackIndex)
  }

  /** writeSampleData: forwarded only while some encoder has started. */
  function WriteSampleData(m: Muxer, track: int): (calls: seq<Effect>)
    ensures calls == [MuxerWriteSample(track)] || calls == []
    ensures calls != [] <==> m.startedCount > 0
  {
    CallIf(m.startedCount > 0, MuxerWriteSample(track))
  }

  // ---------------------------------------------------------------- properties

  /** encoderCount counts the occupied slots. */
  predicate CountMatchesSlots(m: Muxer) {
    m.encoderCount == Slots(m)
  }

  lemma AddEncoderSpec(m: Muxer, encoder: Option<Encoder>)
    ensures var r := AddEncoder(m, encoder);
      && (r.Throws? <==>
            encoder.None? || encoder.value.kind == OtherEncoder
            || (encoder.value.kind == VideoEncoder && m.video.Some?)
            || (encoder.value.kind == AudioEncoder && m.audio.Some?))
      && (r.Ok? ==>
            && CountMatchesSlots(r.value) && r.value.encoderCount == Slots(m) + 1
            && (encoder.value.kind == VideoEncoder ==> r.value.video == encoder && r.value.audio == m.audio)
            && (encoder.value.kind == AudioEncoder ==> r.value.audio == encoder && r.value.video == m.video)
            && r.value.startedCount == m.startedCount && r.value.isStarted == m.isStarted)
  {
  }

  /** stopRecording empties both slots but keeps the count, so the next start or stop still
      counts against the old number of encoders. */
  lemma StopRecordingKeepsCount(m: Muxer)
    requires m.video.Some? || m.audio.Some?
    ensures var t := StopRecording(m).state;
      Slots(t) == 0 && t.encoderCount == m.encoderCount && (CountMatchesSlots(m) ==> !CountMatchesSlots(t))
  {
  }

  lemma EncoderCallsInOrder(m: Muxer)
    requires m.video.Some? && m.audio.Some?
    ensures PrepareCalls(m) == [EncoderPrepare(m.video.value), EncoderPrepare(m.audio.value)]
    ensures StartRecordingCalls(m) == [EncoderStartRecording(m.video.value), EncoderStartRecording(m.audio.value)]
    ensures StopRecording(m).calls == [EncoderStopRecording(m.video.value), EncoderStopRecording(m.audio.value)]
  {
  }

  /** start always counts; it starts the muxer exactly when it completes the set, and
      returns isStarted. */
  lemma StartSpec(m: Muxer)
    ensures var r := Start(m);
      && r.state.startedCount == m.startedCount + 1
      && (r.state.isStarted <==> m.isStarted || (m.encoderCount > 0 && r.state.startedCount == m.encoderCount))
      && (MuxerStart in r.calls <==> CompletesStart(m))
      && (r.result.Ok? ==> r.result.value == r.state.isStarted)
      && (r.result.Throws? <==> CompletesStart(m) && !m.hasHandler)
  {
  }

  /** stop always counts down; once the count drops to zero (with encoders added) the muxer
      is stopped, the handler told and the muxer released, in that order. */
  lemma StopSpec(m: Muxer)
    ensures var r := Stop(m);
      && r.state.startedCount == m.startedCount - 1
      && (CompletesStop(m) ==>
            !r.state.isStarted && r.calls == [MuxerStop] + (if m.hasHandler then [OnMuxerStopped(m.outputPath)] else []) + [MuxerRelease])
      && (!CompletesStop(m) ==> r.state.isStarted == m.isStarted && r.calls == [])
  {
  }

  /** k calls of start in a row. */
  function StartTimes(m: Muxer, k: nat): Next
    decreases k
  {
    if k == 0 then Next(m, [])
    else
      var r := Start(m);
      var rest := StartTimes(r.state, k - 1);
      Next(rest.state, r.calls + rest.calls)
  }

  /** k calls of stop in a row. */
  function StopTimes(m: Muxer, k: nat): Next
    decreases k
  {
    if k == 0 then Next(m, [])
    else
      var r := Stop(m);
      var rest := StopTimes(r.state, k - 1);
      Next(rest.state, r.calls + rest.calls)
  }

  /** From a fresh count, the muxer starts on the start of the last encoder and not before,
      and starts once. */
  lemma {:induction false} StartsUntilAllStarted(m: Muxer, k: nat)
    requires 0 <= m.startedCount < m.encoderCount && m.startedCount + k <= m.encoderCount
    requires !m.isStarted
    ensures var r := StartTimes(m, k);
      && r.state.startedCount == m.startedCount + k
      && (r.state.isStarted <==> m.startedCount + k == m.encoderCount)
      && (MuxerStart in r.calls <==> m.startedCount + k == m.encoderCount)
      && r.state.encoderCount == m.encoderCount
    decreases k
  {
    if k > 0 {
      var r := Start(m);
      var rest := StartTimes(r.state, k - 1);
      assert StartTimes(m, k).calls == r.calls + rest.calls;
      if CompletesStart(m) {
        assert k == 1 && rest == Next(r.state, []);
      } else {
        assert MuxerStart !in r.calls;
        StartsUntilAllStarted(r.state, k - 1);
      }
    }
  }

  /** From a started muxer with every encoder started, it is shut down by the stop of the
      last encoder and not before, and released once. */
  lemma {:induction false} StopsUntilAllStopped(m: Muxer, k: nat)
    requires m.encoderCount > 0 && 0 < m.startedCount && k <= m.startedCount
    ensures var r := StopTimes(m, k);
      && r.state.startedCount == m.startedCount - k
      && (MuxerRelease in r.calls <==> k > 0 && m.startedCount - k <= 0)
      && (r.state.isStarted <==> m.isStarted && m.startedCount - k > 0)
      && r.state.encoderCount == m.encoderCount
    decreases k
  {
    if k > 0 {
      var r := Stop(m);
      var rest := StopTimes(r.state, k - 1);
      assert StopTimes(m, k).calls == r.calls + rest.calls;
      if CompletesStop(m) {
        assert k == 1 && rest == Next(r.state, []);
        assert MuxerRelease in r.calls;
      } else {
        assert MuxerRelease !in r.calls;
        StopsUntilAllStopped(r.state, k - 1);
      }
    }
  }

}

/** The wrapper object, its methods proved against MediaMuxerSpec. */
module MediaMuxer {
  import opened Wrappers
  import opened MediaMuxerSpec

  class MediaMuxerWrapper {
    var outputPath: string
    const hasHandler: bool
    var encoderCount: int
    var startedCount: int
    var isStarted: bool
    var videoEncoder: Option<Encoder>
    var audioEncoder: Option<Encoder>
    /** The calls made on the muxer, the handler and the encoders, in order. */
    var calls: seq<Effect>

    function State(): Muxer
      reads this
    {
      Muxer(outputPath, hasHandler, encoderCount, startedCount, isStarted, videoEncoder, audioEncoder)
    }

    /** The part of the constructor after the path check (see Create). */
    constructor(output: string, hasHandler: bool)
      requires |output| > 0
      ensures New(Some(output), hasHandler) == Ok(State()) && calls == []
    {
      outputPath := output;
      this.hasHandler := hasHandler;
      encoderCount, startedCount := 0, 0;
      isStarted := false;
      videoEncoder, audioEncoder := None, None;
      calls := [];
    }

    method GetOutputPath() returns (path: string)
      ensures path == outputPath
    {
      path := outputPath;
    }

    method IsStarted() returns (started: bool)
      ensures started == isStarted
    {
      started := isStarted;
    }

    method Prepare()
      modifies this
      ensures State() == old(State()) && calls == old(calls) + PrepareCalls(old(State()))
    {
      if videoEncoder.Some? {
        calls := calls + [EncoderPrepare(videoEncoder.value)];
      }
      if audioEncoder.Some? {
        calls := calls + [EncoderPrepare(audioEncoder.value)];
      }
    }

    method StartRecording()
      modifies this
      ensures State() == old(State()) && calls == old(calls) + StartRecordingCalls(old(State()))
    {
      if videoEncoder.Some? {
        calls := calls + [EncoderStartRecording(videoEncoder.value)];
      }
      if audioEncoder.Some? {
        calls := calls + [EncoderStartRecording(audioEncoder.value)];
      }
    }

    method StopRecording()
      modifies this
      ensures var r := MediaMuxerSpec.StopRecording(old(State()));
        State() == r.state && calls == old(calls) + r.calls
    {
      if videoEncoder.Some? {
        calls := calls + [EncoderStopRecording(videoEncoder.value)];
      }
      videoEncoder := None;
      if audioEncoder.Some? {
        calls := calls + [EncoderStopRecording(audioEncoder.value)];
      }
      audioEncoder := None;
    }

    method AddEncoder(encoder: Option<Encoder>) returns (o: Outcome)
      modifies this
      ensures var r := MediaMuxerSpec.AddEncoder(old(State()), encoder);
        && (r.Ok? ==> o == Done && State() == r.value)
        && (r.Throws? ==> o == Raised(r.error) && State() == old(State()))
      ensures calls == old(calls)
    {
      if encoder.Some? && encoder.value.kind == VideoEncoder {
        if videoEncoder.Some? {
          return Raised(IllegalArgumentException("Video encoder already added."));
        }
        videoEncoder := encoder;
      } else if encoder.Some? && encoder.value.kind == AudioEncoder {
        if audioEncoder.Some? {
          return Raised(IllegalArgumentException("Video encoder already added."));
        }
        audioEncoder := encoder;
      } else {
        return Raised(IllegalArgumentException("unsupported encoder"));
      }
      encoderCount := (if videoEncoder.Some? then 1 else 0) + (if audioEncoder.Some? then 1 else 0);
      o := Done;
    }

    method Start() returns (r: Result<bool>)
      modifies this
      ensures var s := MediaMuxerSpec.Start(old(State()));
        State() == s.state && calls == old(calls) + s.calls && r == s.result
    {
      startedCount := startedCount + 1;
      if encoderCount > 0 && startedCount == encoderCount {
        calls := calls + [MuxerStart];
        isStarted := true;
        if !hasHandler {
          return Throws(NullPointerException);
        }
        calls := calls + [OnMuxerStarted(outputPath)];
      }
      r := Ok(isStarted);
    }

    method Stop()
      modifies this
      ensures var s := MediaMuxerSpec.Stop(old(State()));
        State() == s.state && calls == old(calls) + s.calls
    {
      startedCount := startedCount - 1;
      if encoderCount > 0 && startedCount <= 0 {
        calls := calls + [MuxerStop];
        if hasHandler {
          calls := calls + [OnMuxerStopped(outputPath)];
        }
        calls := calls + [MuxerRelease];
        isStarted := false;
      }
    }

    method AddTrack(trackIndex: int) returns (r: Result<int>)
      ensures r == MediaMuxerSpec.AddTrack(State(), trackIndex)
    {
      if isStarted {
        return Throws(IllegalStateException("muxer already started"));
      }
      r := Ok(trackIndex);
    }

    method WriteSampleData(track: int)
      modifies this
      ensures State() == old(State()) && calls == old(calls) + MediaMuxerSpec.WriteSampleData(old(State()), track)
    {
      if startedCount > 0 {
        calls := calls + [MuxerWriteSample(track)];
      }
    }
  }

  /** new MediaMuxerWrapper(output, handler): an absent or empty path raises
      IllegalArgumentException. */
  method Create(output: Option<string>, hasHandler: bool) returns (r: Result<MediaMuxerWrapper>)
    ensures New(output, hasHandler).Throws? ==> r == Throws(New(output, hasHandler).error)
    ensures New(output, hasHandler).Ok? ==>
              r.Ok? && fresh(r.value) && r.value.State() == New(output, hasHandler).value && r.value.calls == []
  {
    if output.None? || |output.value| == 0 {
      return Throws(IllegalArgumentException("output must not null"));
    }
    var w := new MediaMuxerWrapper(output.value, hasHandler);
    r := Ok(w);
  }
}
