/** The answer panel's voice feature: one shortcut starts a recording, the next one
    finishes it, transcribes the audio and asks the chat model about it. The recorder,
    stream and chunk list are the panel's refs; the rest is what the voice dialog shows.
    A finish runs in two steps, because the refs are cleared before the upload begins:
    `Finish` up to that point, `Upload` for the rest. */
module VoicePanel {
  import opened Wrappers
  import opened JsString
  import opened Transcription
  import opened WhisperRecording

  const NoKey := "OpenAI API key not set. Please add your API key in Settings."
  const NoKeyStatus := "Error - Add API key in Settings"
  const RecordingStatus := "Recording... Press \U{2318}+D to stop and process"
  const MicStatus := "Error - Check microphone permissions"
  const ProcessingStatus := "Processing recording..."
  const UploadingStatus := "Uploading to Whisper..."
  const GeneratingStatus := "Generating answer..."
  const DoneStatus := "Done - Press \U{2318}+D to start a new recording"
  const RetryStatus := "Error - Press \U{2318}+D to try again"

  /** `localStorage.getItem('openai_api_key') || apiKey`. */
  function KeyOf(stored: Option<string>, apiKey: string): string {
    if stored.Some? && stored.value != "" then stored.value else apiKey
  }

  /** What a finish hands to the upload: the key and the recorded audio. */
  datatype PendingUpload = PendingUpload(key: string, audio: Blob)

  class Panel {
    var recorder: Option<Recorder>
    var stream: Option<Stream>
    var chunks: seq<Chunk>
    var modalOpen: bool
    var loading: bool
    var status: string
    var error: string
    var shownTranscription: string
    var answer: string
    var response: string

    constructor ()
      ensures recorder.None? && stream.None? && chunks == []
      ensures !modalOpen && !loading && status == "" && error == ""
      ensures shownTranscription == "" && answer == "" && response == ""
    {
      recorder := None;
      stream := None;
      chunks := [];
      modalOpen := false;
      loading := false;
      status := "";
      error := "";
      shownTranscription := "";
      answer := "";
      response := "";
    }

    /** `handleWhisper`: with a live recorder handle it finishes instead of starting. */
    method Press(stored: Option<string>, apiKey: string, mic: Result<Stream>, stopError: Option<string>,
                 readLoads: bool)
      returns (pending: Option<PendingUpload>)
      modifies this
      ensures old(recorder).Some? ==> recorder.None? || recorder == old(recorder)
      ensures old(recorder).Some? && KeyOf(stored, apiKey) == "" ==> recorder == old(recorder) && pending.None?
      ensures old(recorder).Some? && KeyOf(stored, apiKey) != "" && (stopError.Some? || readLoads) ==>
        recorder.None? && stream.None?
      ensures old(recorder).Some? && KeyOf(stored, apiKey) != "" && stopError.None? && !readLoads ==>
        recorder == old(recorder) && pending.None?
      ensures old(recorder).Some? && KeyOf(stored, apiKey) != "" && stopError.None? && readLoads ==>
        pending == Some(PendingUpload(KeyOf(stored, apiKey), Blob(old(chunks), RecordingType)))
      ensures old(recorder).None? ==> pending.None?
      ensures old(recorder).None? && (KeyOf(stored, apiKey) == "" || mic.Err?) ==> recorder.None?
      ensures old(recorder).None? && KeyOf(stored, apiKey) != "" && mic.Ok? ==>
        recorder == Some(Recorder(mic.value)) && stream == Some(mic.value) && chunks == []
    {
      if recorder.Some? {
        pending := Finish(stored, apiKey, stopError, readLoads);
        return;
      }
      Start(stored, apiKey, mic);
      pending := None;
    }

    /** Starting: reset the dialog, check the key, get the microphone, then make a new
        recorder over it with an empty chunk list. */
    method Start(stored: Option<string>, apiKey: string, mic: Result<Stream>)
      requires recorder.None?
      modifies this
      ensures modalOpen && response == "" && shownTranscription == "" && answer == ""
      ensures KeyOf(stored, apiKey) == "" ==>
        && error == NoKey && status == NoKeyStatus && !loading
        && recorder.None? && stream == old(stream) && chunks == old(chunks)
      ensures KeyOf(stored, apiKey) != "" && mic.Err? ==>
        && error == "Microphone access failed: " + mic.message && status == MicStatus && !loading
        && recorder.None? && stream == old(stream) && chunks == old(chunks)
      ensures KeyOf(stored, apiKey) != "" && mic.Ok? ==>
        && error == "" && status == RecordingStatus && loading
        && recorder == Some(Recorder(mic.value)) && stream == Some(mic.value) && chunks == []
    {
      response := "";
      error := "";
      shownTranscription := "";
      answer := "";
      modalOpen := true;
      loading := true;
      status := RecordingStatus;
      var key := KeyOf(stored, apiKey);
      if key == "" {
        error := NoKey;
        status := NoKeyStatus;
        loading := false;
        return;
      }
      match mic {
        case Err(message) =>
          error := "Microphone access failed: " + message;
          status := MicStatus;
          loading := false;
        case Ok(s) =>
          stream := Some(s);
          chunks := [];
          recorder := Some(Recorder(s));
      }
    }

    /** The recorder's `dataavailable` handler: only chunks holding data are kept. */
    method OnData(chunk: Chunk)
      modifies this
      ensures chunks == old(chunks) + (if |chunk.bytes| > 0 then [chunk] else [])
      ensures recorder == old(recorder) && stream == old(stream)
    {
      if |chunk.bytes| > 0 {
        chunks := chunks + [chunk];
      }
    }

    /** `finishWhisperRecording` up to the upload. Without a key it returns at once and
        leaves the recorder running; otherwise it stops the recorder, builds the blob and
        clears both refs, so a press during the upload starts a new recording. A failure
        to stop lands in the outer `catch`, which clears the refs too. Saving a copy of the
        audio waits for a file reader's load event and nothing else: `readLoads` says
        whether it fires; when it does not, the finish never gets past the save and the
        refs stay set. */
    method Finish(stored: Option<string>, apiKey: string, stopError: Option<string>, readLoads: bool)
      returns (pending: Option<PendingUpload>)
      modifies this
      ensures old(recorder).None? ==>
        && pending.None? && recorder == old(recorder) && stream == old(stream)
        && error == old(error) && status == old(status) && loading == old(loading)
        && modalOpen == old(modalOpen) && response == old(response)
      ensures old(recorder).Some? && KeyOf(stored, apiKey) == "" ==>
        && pending.None? && recorder == old(recorder) && stream == old(stream) && chunks == old(chunks)
        && error == NoKey && status == NoKeyStatus && modalOpen && !loading
      ensures old(recorder).Some? && KeyOf(stored, apiKey) != "" ==> modalOpen
      ensures old(recorder).Some? && KeyOf(stored, apiKey) != "" && (stopError.Some? || readLoads) ==>
        recorder.None? && stream.None?
      ensures old(recorder).Some? && KeyOf(stored, apiKey) != "" && stopError.Some? ==>
        pending.None? && error == "Recording error: " + stopError.value && status == RetryStatus && !loading
      ensures old(recorder).Some? && KeyOf(stored, apiKey) != "" && stopError.None? && !readLoads ==>
        && pending.None? && recorder == old(recorder) && stream == old(stream)
        && status == ProcessingStatus && error == old(error) && loading == old(loading)
      ensures old(recorder).Some? && KeyOf(stored, apiKey) != "" && stopError.None? && readLoads ==>
        && pending == Some(PendingUpload(KeyOf(stored, apiKey), Blob(old(chunks), RecordingType)))
        && status == UploadingStatus && error == old(error) && loading == old(loading)
      ensures chunks == old(chunks) && answer == old(answer) && shownTranscription == old(shownTranscription)
    {
      pending := None;
      if recorder.None? {
        return;
      }
      var key := KeyOf(stored, apiKey);
      if key == "" {
        error := NoKey;
        status := NoKeyStatus;
        modalOpen := true;
        loading := false;
        return;
      }
      status := ProcessingStatus;
      modalOpen := true;
      if stopError.Some? {
        error := "Recording error: " + stopError.value;
        status := RetryStatus;
        loading := false;
        recorder := None;
        stream := None;
        return;
      }
      if !readLoads {
        return;
      }
      var audio := Blob(chunks, RecordingType);
      status := UploadingStatus;
      recorder := None;
      stream := None;
      pending := Some(PendingUpload(key, audio));
    }

    /** The rest of a finish: transcribe, fall back on an explanatory request when the
        transcript is empty, then ask the chat model. The refs are not touched. */
    method Upload(p: PendingUpload, prompt: string, whisper: WhisperReply, chat: ChatReply)
      returns (sent: Option<string>)
      modifies this
      ensures recorder == old(recorder) && stream == old(stream) && chunks == old(chunks)
      ensures !loading
      ensures Transcript(whisper).Err? ==>
        && sent.None? && error == "Whisper error: " + Transcript(whisper).message && status == ""
        && shownTranscription == old(shownTranscription) && answer == old(answer)
      ensures Transcript(whisper).Ok? ==>
        var prepared := Prepare(Transcript(whisper).value);
        && sent == Some(UserMessage(prompt, prepared.sent))
        && shownTranscription == prepared.shown
        && (ChatAnswer(chat).Ok? ==>
              && answer == ChatAnswer(chat).value && status == DoneStatus
              && error == (if prepared.warning.Some? then prepared.warning.value else old(error)))
        && (ChatAnswer(chat).Err? ==>
              && answer == old(answer) && status == GeneratingStatus
              && error == "Chat error: " + ChatAnswer(chat).message)
    {
      sent := None;
      var t := Transcript(whisper);
      if t.Err? {
        error := "Whisper error: " + t.message;
        status := "";
        loading := false;
        return;
      }
      var prepared := Prepare(t.value);
      if prepared.warning.Some? {
        error := prepared.warning.value;
      }
      shownTranscription := prepared.shown;
      status := GeneratingStatus;
      var message := UserMessage(prompt, prepared.sent);
      sent := Some(message);
      var a := ChatAnswer(chat);
      if a.Ok? {
        answer := a.value;
        status := DoneStatus;
      } else {
        error := "Chat error: " + a.message;
      }
      loading := false;
    }
  }

  /** A press while an upload is pending starts a new recording: once a finish has
      handed off its audio the handle is gone, and the upload never restores it. */
  method PressDuringUpload(panel: Panel, stored: Option<string>, apiKey: string, mic: Stream,
                           prompt: string, whisper: WhisperReply, chat: ChatReply)
    returns (pending: Option<PendingUpload>, restarted: Option<PendingUpload>)
    requires panel.recorder.Some? && KeyOf(stored, apiKey) != ""
    modifies panel
    ensures pending.Some? && restarted.None?
    ensures panel.recorder == Some(Recorder(mic)) && panel.chunks == []
  {
    pending := panel.Press(stored, apiKey, Ok(mic), None, true);
    restarted := panel.Press(stored, apiKey, Ok(mic), None, true);
    var _ := panel.Upload(pending.value, prompt, whisper, chat);
  }
}
