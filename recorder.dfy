/** The Whisper recording service: a singleton object holding at most one microphone
    stream and recorder, and the chunks recorded so far. The microphone, the recorder,
    the file reader and the save bridge are oracle values. */
module WhisperRecording {
  import opened Wrappers
  import opened Transcription

  /** A microphone stream obtained from the device. */
  datatype Stream = Stream(id: nat)

  /** A recorder over a stream. */
  datatype Recorder = Recorder(stream: Stream)

  /** How `stopRecording` ends: `null` when there was nothing to stop, the blob with its
      data URL and saved path, a rejection from the reader, or a promise that never
      settles, because a failure of the save call inside the reader's callback is neither
      caught nor passed to `reject`. */
  datatype StopResult =
    | NotRecording
    | Stopped(audio: Blob, dataUrl: string, filePath: Option<string>)
    | StopRejected(message: string)
    | StopUnsettled

  /** How `startRecording` ends: it resolves `true`, rejects with a message, or waits
      forever on a stop that never settles. */
  datatype StartResult = Started | StartFailed(message: string) | StartUnsettled

  class WhisperService {
    var isRecording: bool
    var recorder: Option<Recorder>
    var stream: Option<Stream>
    var chunks: seq<Chunk>

    /** Recording exactly when a recorder exists, over the stream held; no stream is
        held while idle. */
    ghost predicate Valid()
      reads this
    {
      && (isRecording <==> recorder.Some?)
      && (recorder.Some? ==> stream == Some(recorder.value.stream))
      && (!isRecording ==> stream.None?)
    }

    /** Nothing held and nothing recorded. */
    ghost predicate Idle()
      reads this
    {
      !isRecording && recorder.None? && stream.None? && chunks == []
    }

    constructor ()
      ensures Valid() && Idle()
    {
      isRecording := false;
      recorder := None;
      stream := None;
      chunks := [];
    }

    /** The recorder's `dataavailable` handler: only non-empty chunks are kept. */
    method OnDataAvailable(chunk: Chunk)
      modifies this
      ensures chunks == old(chunks) + (if |chunk.bytes| > 0 then [chunk] else [])
      ensures isRecording == old(isRecording) && recorder == old(recorder) && stream == old(stream)
    {
      if |chunk.bytes| > 0 {
        chunks := chunks + [chunk];
      }
    }

    /** `cleanupRecording`: every field back to idle (the stream's tracks are stopped). */
    method Cleanup()
      modifies this
      ensures Valid() && Idle()
    {
      isRecording := false;
      if stream.Some? {
        stream := None;
      }
      recorder := None;
      chunks := [];
    }

    /** `stopRecording`, given what reading the blob as a data URL and saving it yield.
        The blob is built from the chunks, then the service is cleaned up before the
        blob is read, so it is idle however reading or saving ends. */
    method StopRecording(read: Result<string>, saved: Result<Option<string>>) returns (r: StopResult)
      requires Valid()
      modifies this
      ensures Valid()
      ensures r == StopResultOf(old(isRecording), old(recorder).Some?, old(chunks), read, saved)
      ensures !old(isRecording) || old(recorder).None? ==>
        isRecording == old(isRecording) && recorder == old(recorder) && stream == old(stream) && chunks == old(chunks)
      ensures old(isRecording) && old(recorder).Some? ==> Idle()
    {
      if !isRecording || recorder.None? {
        return NotRecording;
      }
      var audio := Blob(chunks, RecordingType);
      Cleanup();
      match read {
        case Err(message) => r := StopRejected(message);
        case Ok(dataUrl) =>
          match saved {
            case Err(_) => r := StopUnsettled;
            case Ok(path) => r := Stopped(audio, dataUrl, path);
          }
      }
    }

    /** `startRecording`: a running recording is stopped first, so at most one recorder
        and stream exist; chunks are reset, and the service records only once the
        microphone was granted. */
    method StartRecording(read: Result<string>, saved: Result<Option<string>>, mic: Result<Stream>)
      returns (r: StartResult)
      requires Valid()
      modifies this
      ensures Valid()
      ensures isRecording <==> r.Started?
      ensures r.Started? ==> mic.Ok? && recorder == Some(Recorder(mic.value)) && stream == Some(mic.value) && chunks == []
      ensures r == StartOutcome(old(isRecording), StopOutcome(old(chunks), read, saved), mic)
      ensures !r.Started? ==> recorder.None? && stream.None?
      ensures var stop := StopOutcome(old(chunks), read, saved);
        !(old(isRecording) && (stop.StopRejected? || stop.StopUnsettled?)) ==> chunks == []
    {
      if isRecording {
        var stopped := StopRecording(read, saved);
        if stopped.StopRejected? {
          return StartFailed(stopped.message);
        }
        if stopped.StopUnsettled? {
          return StartUnsettled;
        }
      }
      chunks := [];
      match mic {
        case Err(message) =>
          r := StartFailed(message);
        case Ok(s) =>
          stream := Some(s);
          recorder := Some(Recorder(s));
          isRecording := true;
          r := Started;
      }
    }

    /** `checkMicrophonePermission`: granted exactly when the device hands out a stream
        (which is released at once). */
    method CheckMicrophonePermission(mic: Result<Stream>) returns (granted: bool)
      ensures granted <==> mic.Ok?
    {
      granted := mic.Ok?;
    }
  }

  /** What a stop of a running recording yields. */
  function StopOutcome(chunks: seq<Chunk>, read: Result<string>, saved: Result<Option<string>>): StopResult {
    if read.Err? then StopRejected(read.message)
    else if saved.Err? then StopUnsettled
    else Stopped(Blob(chunks, RecordingType), read.value, saved.value)
  }

  /** What `stopRecording` yields from a given state: `null` unless there is a running
      recording with a recorder. */
  function StopResultOf(recording: bool, hasRecorder: bool, chunks: seq<Chunk>,
                        read: Result<string>, saved: Result<Option<string>>): StopResult {
    if !recording || !hasRecorder then NotRecording else StopOutcome(chunks, read, saved)
  }

  /** What a start yields, given whether it was recording and how that stop ended. */
  function StartOutcome(wasRecording: bool, stop: StopResult, mic: Result<Stream>): StartResult {
    if wasRecording && stop.StopRejected? then StartFailed(stop.message)
    else if wasRecording && stop.StopUnsettled? then StartUnsettled
    else if mic.Err? then StartFailed(mic.message)
    else Started
  }

  /** The stopped blob holds exactly the chunks recorded, as "audio/webm"; and a start
      from idle succeeds exactly when the microphone is granted. */
  lemma StopAndStartOutcomes(chunks: seq<Chunk>, read: Result<string>, saved: Result<Option<string>>,
                             stop: StopResult, mic: Result<Stream>)
    ensures StopOutcome(chunks, read, saved).Stopped? <==> read.Ok? && saved.Ok?
    ensures StopOutcome(chunks, read, saved).Stopped? ==>
      StopOutcome(chunks, read, saved).audio == Blob(chunks, "audio/webm")
    ensures StopResultOf(false, true, chunks, read, saved) == NotRecording
    ensures StartOutcome(false, stop, mic).Started? <==> mic.Ok?
    ensures mic.Err? ==> StartOutcome(false, stop, mic) == StartFailed(mic.message)
  {
  }
}
