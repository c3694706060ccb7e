/** Transcription post-processing, shared by the Whisper service and the panel's inline
    copy of it: reading the Whisper reply, the empty-transcription fallback, composing
    the chat message, and reading the chat reply. */
module Transcription {
  import opened Wrappers
  import opened JsString

  /** One piece of recorded audio, as the recorder delivers it. */
  datatype Chunk = Chunk(bytes: seq<bv8>)

  /** `new Blob(chunks, { type })`. */
  datatype Blob = Blob(chunks: seq<Chunk>, mimeType: string)

  const RecordingType := "audio/webm"

  /** The fixed fields of the transcription upload, sent with the blob. */
  const AudioFileName := "audio.webm"
  const WhisperModel := "whisper-1"
  const WhisperLanguage := "pt"

  const EmptyMarker := "[Transcrição vazia]"
  const EmptyWarning := "A transcrição retornou vazia. Possíveis causas: áudio muito curto, silencioso ou problema de conexão com a API."
  const EmptyExplained := "A transcrição retornou vazia. Por favor, informe possíveis razões por que o serviço Whisper da OpenAI pode não ter conseguido transcrever meu áudio e dê dicas para melhorar a qualidade da gravação."
  const ChatFailed := "Chat Completion API error"
  /** What the renderer's engine reports when `content.trim()` is read from an absent content. */
  const TrimOfUndefined := "Cannot read properties of undefined (reading 'trim')"

  /** How the transcription request ended: an OK body's `text` field (`None` when
      absent), a non-OK status with its status text and the body's `error.message`, or a
      thrown error (network, unreadable body). */
  datatype WhisperReply =
    | Transcribed(text: Option<string>)
    | WhisperNotOk(statusText: string, detail: Option<string>)
    | WhisperThrown(message: string)

  /** The outcome of `processAudioWithWhisper` (and of the panel's copy): the trimmed
      text, or "" when the field is missing; a non-OK reply always ends in the
      status-text error, because the detailed error thrown inside the `try` is caught by
      its own `catch`. */
  function Transcript(reply: WhisperReply): Result<string> {
    match reply
    case Transcribed(text) => Ok(if text.Some? then Trim(text.value) else "")
    case WhisperNotOk(statusText, _) =>
      Err("Whisper API error: " + (if statusText != "" then statusText else "Unknown error"))
    case WhisperThrown(message) => Err(message)
  }

  /** A transcript is already trimmed, and the body's error detail never reaches the
      message, which always names the status text or "Unknown error". */
  lemma TranscriptProperties(reply: WhisperReply)
    ensures Transcript(reply).Ok? ==> Trim(Transcript(reply).value) == Transcript(reply).value
    ensures reply.Transcribed? && reply.text.None? ==> Transcript(reply) == Ok("")
    ensures reply.WhisperNotOk? ==>
      && Transcript(reply) == Transcript(WhisperNotOk(reply.statusText, None))
      && Transcript(reply).Err?
      && StartsWith(Transcript(reply).message, "Whisper API error: ")
    ensures reply.WhisperNotOk? && reply.statusText == "" ==>
      Transcript(reply) == Err("Whisper API error: Unknown error")
  {
    if reply.Transcribed? && reply.text.Some? {
      TrimIdempotent(reply.text.value);
    }
    if reply.WhisperNotOk? {
      var tail := if reply.statusText != "" then reply.statusText else "Unknown error";
      assert ("Whisper API error: " + tail)[..|"Whisper API error: "|] == "Whisper API error: ";
    }
  }

  /** What the panel shows and what it sends on: an empty transcript is not fatal; the
      panel shows a marker and a warning and sends an explanatory request instead. */
  datatype Prepared = Prepared(shown: string, sent: string, warning: Option<string>)

  function Prepare(transcript: string): Prepared {
    if transcript == "" then Prepared(EmptyMarker, EmptyExplained, Some(EmptyWarning))
    else Prepared(transcript, transcript, None)
  }

  /** Something non-empty is always sent; a non-empty transcript is shown and sent
      unchanged, and the warning appears exactly for the empty one. */
  lemma PrepareProperties(transcript: string)
    ensures Prepare(transcript).sent != ""
    ensures Prepare(transcript).shown != ""
    ensures transcript != "" ==> Prepare(transcript) == Prepared(transcript, transcript, None)
    ensures Prepare(transcript).warning.Some? <==> transcript == ""
  {
  }

  /** The text of the chat message before the quoted transcript. */
  function MessagePrefix(prompt: string): string {
    if prompt != "" then prompt + "\n\nTranscrição do áudio: \"" else "Por favor, responda ao seguinte: \""
  }

  /** The user message: the prompt and the quoted transcript, or a request to answer the
      quoted transcript when the prompt is empty. */
  function UserMessage(prompt: string, transcript: string): string {
    MessagePrefix(prompt) + transcript + "\""
  }

  /** Reads the quoted transcript back out of a message for the same prompt. */
  function QuotedTranscript(prompt: string, message: string): Option<string> {
    var prefix := MessagePrefix(prompt);
    if StartsWith(message, prefix) && |message| > |prefix| && message[|message| - 1] == '"' then
      Some(message[|prefix|..|message| - 1])
    else None
  }

  /** The transcript can be read back from the message, so different transcripts give
      different messages; with a prompt the message starts with it. */
  lemma UserMessageRoundTrip(prompt: string, transcript: string)
    ensures QuotedTranscript(prompt, UserMessage(prompt, transcript)) == Some(transcript)
    ensures prompt != "" ==> StartsWith(UserMessage(prompt, transcript), prompt)
    ensures prompt == "" ==> StartsWith(UserMessage(prompt, transcript), "Por favor, responda ao seguinte: \"")
  {
    var prefix := MessagePrefix(prompt);
    var m := UserMessage(prompt, transcript);
    assert m[..|prefix|] == prefix;
    assert m[|prefix|..|m| - 1] == transcript;
    if prompt != "" {
      assert m[..|prompt|] == prompt;
    }
  }

  lemma UserMessageInjective(prompt: string, t1: string, t2: string)
    requires UserMessage(prompt, t1) == UserMessage(prompt, t2)
    ensures t1 == t2
  {
    UserMessageRoundTrip(prompt, t1);
    UserMessageRoundTrip(prompt, t2);
  }

  /** The first choice of a chat reply: no message at all, or a message whose `content`
      may be absent. */
  datatype ChatChoice = NoMessage | Message(content: Option<string>)

  datatype ChatReply = ChatAnswered(choice: ChatChoice) | ChatNotOk | ChatThrown(message: string)

  /** `choices?.[0]?.message?.content.trim() || ''`, after a non-OK status is turned into
      the fixed error: the optional chain stops at a missing message, but an absent
      content is still trimmed and throws. */
  function ChatAnswer(reply: ChatReply): Result<string> {
    match reply
    case ChatNotOk => Err(ChatFailed)
    case ChatThrown(message) => Err(message)
    case ChatAnswered(NoMessage) => Ok("")
    case ChatAnswered(Message(None)) => Err(TrimOfUndefined)
    case ChatAnswered(Message(Some(content))) => Ok(Trim(content))
  }

  /** An answer is trimmed; every non-OK status gives the same fixed error. */
  lemma ChatAnswerProperties(reply: ChatReply)
    ensures ChatAnswer(reply).Ok? ==> Trim(ChatAnswer(reply).value) == ChatAnswer(reply).value
    ensures reply.ChatNotOk? <==> ChatAnswer(reply) == Err(ChatFailed) && !reply.ChatThrown?
    ensures reply.ChatAnswered? && reply.choice.Message? && reply.choice.content.Some? ==>
      ChatAnswer(reply) == Ok(Trim(reply.choice.content.value))
  {
    if reply.ChatAnswered? && reply.choice.Message? && reply.choice.content.Some? {
      TrimIdempotent(reply.choice.content.value);
    }
  }
}
