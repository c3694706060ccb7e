/** The voice controller component: one button that starts a recording through the
    recording service, or stops it, transcribes the audio and, when the prompt box holds
    text, asks the chat model about the transcript. */
module WhisperToggle {
  import opened Wrappers
  import opened JsString
  import opened Transcription
  import opened WhisperRecording

  const DefaultFailure := "Erro ao processar áudio"

  /** `err.message || 'Erro ao processar áudio'`. */
  function Reported(message: string): (r: string)
    ensures r != ""
    ensures message != "" ==> r == message
  {
    if message != "" then message else DefaultFailure
  }

  class WhisperController {
    const service: WhisperService
    var isRecording: bool
    var isProcessing: bool
    var transcription: string
    var aiResponse: string
    /** The last message passed to the parent's `setError`. */
    var reported: Option<string>

    /** The service keeps its own invariant, and the component processes only a stop. */
    ghost predicate Valid()
      reads this, service
    {
      service.Valid() && (isProcessing ==> isRecording)
    }

    constructor (service: WhisperService)
      requires service.Valid()
      ensures this.service == service && Valid()
      ensures !isRecording && !isProcessing && transcription == "" && aiResponse == "" && reported.None?
    {
      this.service := service;
      isRecording := false;
      isProcessing := false;
      transcription := "";
      aiResponse := "";
      reported := None;
    }

    /** The button is disabled while a stop is being processed. */
    predicate ButtonDisabled()
      reads this
    {
      isProcessing
    }

    /** The synchronous part of a stop, up to the first wait: the button is disabled
        from here until the stop is processed. */
    method BeginStop()
      requires Valid() && isRecording
      modifies this
      ensures Valid() && ButtonDisabled() && isRecording
      ensures transcription == old(transcription) && aiResponse == old(aiResponse) && reported == old(reported)
    {
      isProcessing := true;
    }

    /** The `catch`: report the message and clear both flags. */
    method Fail(message: string)
      requires service.Valid()
      modifies this
      ensures Valid() && !isRecording && !isProcessing
      ensures reported == Some(Reported(message))
      ensures transcription == old(transcription) && aiResponse == old(aiResponse)
    {
      reported := Some(Reported(message));
      isRecording := false;
      isProcessing := false;
    }

    /** `toggleRecording`, given every oracle value it may consult. `transcribed` says
        whether the audio was sent for transcription, `sent` the chat message, if any. */
    method ToggleRecording(prompt: string, read: Result<string>, saved: Result<Option<string>>,
                           mic: Result<Stream>, whisper: WhisperReply, chat: ChatReply)
      returns (transcribed: bool, sent: Option<string>)
      requires Valid()
      modifies this, service
      ensures Valid()
      ensures var stop := StopResultOf(old(service.isRecording), old(service.recorder).Some?, old(service.chunks), read, saved);
        old(isRecording) ==>
          && (transcribed <==> stop.Stopped?)
          && (sent.Some? <==> transcribed && Transcript(whisper).Ok? && Trim(prompt) != "")
          && (sent.Some? ==> sent.value == UserMessage(prompt, Transcript(whisper).value))
          && (stop.StopUnsettled? ==> isRecording && isProcessing && reported == old(reported))
          && (!stop.StopUnsettled? ==> !isRecording && !isProcessing)
          && (transcribed && Transcript(whisper).Ok? ==> transcription == Transcript(whisper).value)
          && (!(transcribed && Transcript(whisper).Ok?) ==> transcription == old(transcription))
          && (sent.Some? && ChatAnswer(chat).Ok? ==> aiResponse == ChatAnswer(chat).value)
          && (!(sent.Some? && ChatAnswer(chat).Ok?) ==> aiResponse == old(aiResponse))
          && (stop.StopRejected? ==> reported == Some(Reported(stop.message)))
          && (transcribed && Transcript(whisper).Err? ==> reported == Some(Reported(Transcript(whisper).message)))
          && (sent.Some? && ChatAnswer(chat).Err? ==> reported == Some(Reported(ChatAnswer(chat).message)))
          && (stop.NotRecording? || (transcribed && Transcript(whisper).Ok? && (sent.None? || ChatAnswer(chat).Ok?)) ==>
                reported == old(reported))
      ensures var start := StartOutcome(old(service.isRecording), StopOutcome(old(service.chunks), read, saved), mic);
        !old(isRecording) ==>
          && !transcribed && sent.None?
          && (isRecording <==> start.Started?)
          && !isProcessing
          && (start.StartFailed? ==> reported == Some(Reported(start.message)))
          && (!start.StartFailed? ==> reported == old(reported))
          && transcription == old(transcription) && aiResponse == old(aiResponse)
    {
      transcribed := false;
      sent := None;
      if isRecording {
        BeginStop();
        var stop := service.StopRecording(read, saved);
        if stop.StopRejected? {
          Fail(stop.message);
          return;
        }
        if stop.StopUnsettled? {
          return;
        }
        if stop.Stopped? {
          transcribed := true;
          var t := Transcript(whisper);
          if t.Err? {
            Fail(t.message);
            return;
          }
          transcription := t.value;
          if Trim(prompt) != "" {
            sent := Some(UserMessage(prompt, t.value));
            var answer := ChatAnswer(chat);
            if answer.Err? {
              Fail(answer.message);
              return;
            }
            aiResponse := answer.value;
          }
        }
        isRecording := false;
        isProcessing := false;
      } else {
        var start := service.StartRecording(read, saved, mic);
        if start.StartFailed? {
          Fail(start.message);
          return;
        }
        if start.StartUnsettled? {
          return;
        }
        isRecording := true;
      }
    }
  }
}
