/** Answer providers: the guard chains and request shaping of the OpenAI and Gemini
    calls (the services, and the panel's inline copies of them), the panel's provider
    auto-selection, submit routing with the hand-off to Gemini, and the predicate that
    disables the generate button. Every network exchange is an oracle value. */
module AnswerProviders {
  import opened Wrappers
  import opened JsString

  const NoOpenAIKey := "API key not set. Please add your OpenAI API key in Settings."
  const NoCloudflare := "Cloudflare account not set. Please add your Cloudflare account hash in Settings."
  const NothingToAsk := "Please provide a problem description or capture a screenshot (\U{2318}+V)."
  const OpenAIFailed := "Error calling OpenAI API"
  const NoGeminiKey := "Gemini API key not set. Please add your Gemini API key in Settings."
  const NoImageForGemini := "Please capture a screenshot (\U{2318}+S) or paste an image (\U{2318}+V) to analyze with Gemini."
  const GeminiFailed := "Error calling Gemini API"
  const GeminiEmpty := "Invalid or empty response from Gemini API"
  const DefaultGeminiPrompt := "Analyze this image and explain what's in it."
  /** What the renderer's engine reports when `parts[0].text` is read from an empty list. */
  const ReadOfUndefined := "Cannot read properties of undefined (reading 'text')"
  const ChatModel := "gpt-4o"
  const MaxTokens := 4096

  /** An image given as a `data:` URL (pasted or captured), rather than a web address.
      Strings stand for the source's nullable strings: "" is `null` (both are falsy). */
  predicate IsDataUrl(image: string) {
    StartsWith(image, "data:")
  }

  /** How the Cloudflare upload of a `data:` image ended: the first variant URL and the
      blob's type, or a failure of any step (reading the blob, a non-OK status, reading
      the body). */
  datatype Upload = Uploaded(variant: string, blobType: string) | UploadFailed

  /** How a call to a model endpoint ended: an OK status with the fields read from the
      body, a non-OK status with the body's `error.message` (`None` when absent), or a
      thrown error (network, unreadable body) with its message. */
  datatype Reply<T> = Answered(body: T) | NotOk(errorMessage: Option<string>) | Thrown(message: string)

  /** `error.error?.message || fallback`. */
  function ErrorText(m: Option<string>, fallback: string): (r: string)
    ensures m.Some? && m.value != "" ==> r == m.value
    ensures m.None? || m.value == "" ==> r == fallback
  {
    if m.Some? && m.value != "" then m.value else fallback
  }

  // ---------------------------------------------------------------- OpenAI

  datatype Part = TextPart(text: string) | ImageUrlPart(url: string)

  /** The chat-completions payload: one user message whose content is `content`. */
  datatype ChatRequest = ChatRequest(model: string, content: seq<Part>, maxTokens: nat)

  datatype GeminiImage =
    | Inline(inlineType: Option<string>, data: Option<string>)
    | ByUri(mimeType: string, fileUri: string)

  /** The Gemini payload: a text part followed by an `inline_data` part. */
  datatype GeminiRequest = GeminiRequest(text: string, image: GeminiImage)

  datatype Request = ToOpenAI(chat: ChatRequest) | ToGemini(gemini: GeminiRequest)

  /** What one provider call did: the request sent, if any, and the text answer or the
      error message. A call that sends nothing never sets the loading flag. */
  datatype Attempt = Attempt(sent: Option<Request>, result: Result<string>)

  /** The first OpenAI guard that fails, in the source's order: key, `data:` image
      without a Cloudflare hash, neither prompt nor image. */
  function OpenAIGuard(prompt: string, imageData: string, apiKey: string, cloudflare: string): Option<string> {
    if apiKey == "" then Some(NoOpenAIKey)
    else if imageData != "" && IsDataUrl(imageData) && cloudflare == "" then Some(NoCloudflare)
    else if prompt == "" && imageData == "" then Some(NothingToAsk)
    else None
  }

  /** The URL sent for an image: the uploaded variant for a `data:` image whose upload
      worked, otherwise the image string itself. */
  function ImageUrl(imageData: string, upload: Upload): string {
    if IsDataUrl(imageData) && upload.Uploaded? then upload.variant else imageData
  }

  /** The message content: the text part, then one `image_url` part when there is an image. */
  function OpenAIContent(prompt: string, imageData: string, upload: Upload): seq<Part> {
    [TextPart(prompt)] + (if imageData != "" then [ImageUrlPart(ImageUrl(imageData, upload))] else [])
  }

  /** The payload object the service builds; its message content grows by `push`. */
  class Payload {
    const model: string
    const maxTokens: nat
    var content: seq<Part>

    /** The literal: the model, the token limit and the prompt's text part. */
    constructor (prompt: string)
      ensures model == ChatModel && maxTokens == MaxTokens && content == [TextPart(prompt)]
    {
      model := ChatModel;
      maxTokens := MaxTokens;
      content := [TextPart(prompt)];
    }

    method Push(part: Part)
      modifies this
      ensures content == old(content) + [part]
    {
      content := content + [part];
    }

    function Request(): ChatRequest
      reads this
    {
      ChatRequest(model, content, maxTokens)
    }
  }

  /** The service's construction of the payload, once the guards have passed: a fresh
      object whose content ends as `OpenAIContent` says, the upload having been tried
      only for a `data:` image. */
  method BuildPayload(prompt: string, imageData: string, upload: Upload) returns (p: Payload)
    ensures fresh(p)
    ensures p.Request() == ChatRequest(ChatModel, OpenAIContent(prompt, imageData, upload), MaxTokens)
  {
    p := new Payload(prompt);
    if imageData != "" {
      if IsDataUrl(imageData) {
        match upload {
          case Uploaded(variant, _) => p.Push(ImageUrlPart(variant));
          case UploadFailed => p.Push(ImageUrlPart(imageData));
        }
      } else {
        p.Push(ImageUrlPart(imageData));
      }
    }
  }

  /** `callOpenAI` in the service (and, once it has a key, in the panel). */
  function CallOpenAI(prompt: string, imageData: string, apiKey: string, cloudflare: string,
                      upload: Upload, reply: Reply<string>): Attempt
  {
    match OpenAIGuard(prompt, imageData, apiKey, cloudflare)
    case Some(message) => Attempt(None, Err(message))
    case None =>
      var request := ToOpenAI(ChatRequest(ChatModel, OpenAIContent(prompt, imageData, upload), MaxTokens));
      match reply
      case Answered(content) => Attempt(Some(request), Ok(content))
      case NotOk(m) => Attempt(Some(request), Err(ErrorText(m, OpenAIFailed)))
      case Thrown(message) => Attempt(Some(request), Err(message))
  }

  /** The guards run before anything is sent, in order, each with its own message; a
      call that passes them sends exactly one request. */
  lemma OpenAIGuardsFirst(prompt: string, imageData: string, apiKey: string, cloudflare: string,
                          upload: Upload, reply: Reply<string>)
    ensures var a := CallOpenAI(prompt, imageData, apiKey, cloudflare, upload, reply);
      && (apiKey == "" ==> a == Attempt(None, Err(NoOpenAIKey)))
      && (apiKey != "" && IsDataUrl(imageData) && cloudflare == "" ==> a == Attempt(None, Err(NoCloudflare)))
      && (apiKey != "" && !(IsDataUrl(imageData) && cloudflare == "") && prompt == "" && imageData == "" ==>
            a == Attempt(None, Err(NothingToAsk)))
      && (a.sent.None? <==> apiKey == "" || (IsDataUrl(imageData) && cloudflare == "") || (prompt == "" && imageData == ""))
  {
    if IsDataUrl(imageData) {
      assert imageData != "";
    }
  }

  /** The content starts with the prompt's text part, and an `image_url` part follows
      exactly when there is an image; nothing else is ever added. */
  lemma OpenAIContentShape(prompt: string, imageData: string, upload: Upload)
    ensures var c := OpenAIContent(prompt, imageData, upload);
      && 1 <= |c| <= 2 && c[0] == TextPart(prompt)
      && (|c| == 2 <==> imageData != "")
      && (|c| == 2 ==> c[1].ImageUrlPart?)
  {
  }

  /** A web address is sent unchanged; a `data:` image is replaced by its uploaded
      variant, or sent itself when the upload failed in any way (the call goes on). */
  lemma ImageUrlChoice(imageData: string, upload: Upload)
    ensures !IsDataUrl(imageData) ==> ImageUrl(imageData, upload) == imageData
    ensures IsDataUrl(imageData) && upload.Uploaded? ==> ImageUrl(imageData, upload) == upload.variant
    ensures upload.UploadFailed? ==> ImageUrl(imageData, upload) == imageData
  {
  }

  /** On a sent request, a non-OK reply yields the body's message or the generic one,
      and an OK reply yields the first choice's content. */
  lemma OpenAIReplies(prompt: string, imageData: string, apiKey: string, cloudflare: string,
                      upload: Upload, reply: Reply<string>)
    requires OpenAIGuard(prompt, imageData, apiKey, cloudflare).None?
    ensures var a := CallOpenAI(prompt, imageData, apiKey, cloudflare, upload, reply);
      && a.sent == Some(ToOpenAI(ChatRequest("gpt-4o", OpenAIContent(prompt, imageData, upload), 4096)))
      && (reply.Answered? ==> a.result == Ok(reply.body))
      && (reply.NotOk? && (reply.errorMessage.None? || reply.errorMessage.value == "") ==>
            a.result == Err("Error calling OpenAI API"))
      && (reply.NotOk? && reply.errorMessage.Some? && reply.errorMessage.value != "" ==>
            a.result == Err(reply.errorMessage.value))
  {
  }

  // ---------------------------------------------------------------- Gemini

  /** The inline form of a `data:` image: the MIME type is the second ':'-piece of the
      text before the first ';', the data the second ','-piece (either may be absent). */
  function InlineImage(imageData: string): GeminiImage {
    Inline(SplitPiece(Split(imageData, ';')[0], ':', 1), SplitPiece(imageData, ',', 1))
  }

  /** The `inline_data` part: a web address by URI as "image/jpeg"; a `data:` image
      uploaded when there is a Cloudflare hash and the upload works, else inlined. */
  function GeminiImageFor(imageData: string, cloudflare: string, upload: Upload): GeminiImage {
    if !IsDataUrl(imageData) then ByUri("image/jpeg", imageData)
    else if cloudflare != "" && upload.Uploaded? then ByUri(upload.blobType, upload.variant)
    else InlineImage(imageData)
  }

  /** The text part: the prompt, or the default request when the prompt is empty. */
  function GeminiText(prompt: string): string {
    if prompt != "" then prompt else DefaultGeminiPrompt
  }

  /** One candidate of the reply: the texts of `content.parts`, `None` when the candidate
      has no content or its content no parts. */
  datatype Candidate = Candidate(parts: Option<seq<string>>)

  /** Acceptance of an OK reply: a non-empty candidate list whose first candidate has
      parts; `parts[0].text` is then returned. */
  function GeminiAnswer(candidates: seq<Candidate>): Result<string> {
    if |candidates| > 0 && candidates[0].parts.Some? then
      var parts := candidates[0].parts.value;
      if |parts| > 0 then Ok(parts[0]) else Err(ReadOfUndefined)
    else Err(GeminiEmpty)
  }

  /** `callGemini` in the service, and `callGeminiAPI` in the panel. */
  function CallGemini(prompt: string, imageData: string, geminiKey: string, cloudflare: string,
                      upload: Upload, reply: Reply<seq<Candidate>>): Attempt
  {
    if geminiKey == "" then Attempt(None, Err(NoGeminiKey))
    else if imageData == "" then Attempt(None, Err(NoImageForGemini))
    else
      var request := ToGemini(GeminiRequest(GeminiText(prompt), GeminiImageFor(imageData, cloudflare, upload)));
      match reply
      case Answered(candidates) => Attempt(Some(request), GeminiAnswer(candidates))
      case NotOk(m) => Attempt(Some(request), Err(ErrorText(m, GeminiFailed)))
      case Thrown(message) => Attempt(Some(request), Err(message))
  }

  /** The key is checked first, then the image, which is required even with a prompt;
      a call that passes both always sends. */
  lemma GeminiGuardsFirst(prompt: string, imageData: string, geminiKey: string, cloudflare: string,
                          upload: Upload, reply: Reply<seq<Candidate>>)
    ensures var a := CallGemini(prompt, imageData, geminiKey, cloudflare, upload, reply);
      && (geminiKey == "" ==> a == Attempt(None, Err(NoGeminiKey)))
      && (geminiKey != "" && imageData == "" ==> a == Attempt(None, Err(NoImageForGemini)))
      && (a.sent.Some? <==> geminiKey != "" && imageData != "")
      && (a.sent.Some? ==> a.sent.value.ToGemini? && a.sent.value.gemini.text != "")
  {
  }

  /** The image part in each of its four cases. */
  lemma GeminiImageCases(imageData: string, cloudflare: string, upload: Upload)
    ensures !IsDataUrl(imageData) ==> GeminiImageFor(imageData, cloudflare, upload) == ByUri("image/jpeg", imageData)
    ensures IsDataUrl(imageData) && cloudflare == "" ==> GeminiImageFor(imageData, cloudflare, upload) == InlineImage(imageData)
    ensures IsDataUrl(imageData) && cloudflare != "" && upload.Uploaded? ==>
      GeminiImageFor(imageData, cloudflare, upload) == ByUri(upload.blobType, upload.variant)
    ensures IsDataUrl(imageData) && upload.UploadFailed? ==> GeminiImageFor(imageData, cloudflare, upload) == InlineImage(imageData)
  {
  }

  /** A `data:` URL "data:<mime>;<params>,<payload>" is inlined with its MIME type and
      payload, whenever the MIME type holds no ';', ':' or ',' and the rest no ','. */
  lemma InlineOfDataUrl(mime: string, params: string, payload: string)
    requires ';' !in mime && ':' !in mime && ',' !in mime
    requires ',' !in params && ',' !in payload
    ensures InlineImage("data:" + mime + ";" + params + "," + payload) == Inline(Some(mime), Some(payload))
  {
    var head := "data:" + mime;
    var s := "data:" + mime + ";" + params + "," + payload;
    assert s == head + [';'] + (params + "," + payload);
    SplitCons(head, ';', params + "," + payload);
    assert head == "data" + [':'] + mime;
    SplitCons("data", ':', mime);
    SplitNone(mime, ':');
    assert s == (head + ";" + params) + [','] + payload;
    SplitCons(head + ";" + params, ',', payload);
    SplitNone(payload, ',');
  }

  /** An OK reply is accepted exactly when it has a first candidate with parts. */
  lemma GeminiAcceptance(candidates: seq<Candidate>)
    ensures GeminiAnswer(candidates) == Err(GeminiEmpty) <==>
      |candidates| == 0 || candidates[0].parts.None?
    ensures GeminiAnswer(candidates).Ok? <==>
      |candidates| > 0 && candidates[0].parts.Some? && |candidates[0].parts.value| > 0
    ensures GeminiAnswer(candidates).Ok? ==> GeminiAnswer(candidates).value == candidates[0].parts.value[0]
  {
  }

  // ---------------------------------------------------------------- the panel

  /** The auto-select effect: only a Gemini key selects Gemini, only an OpenAI key
      selects OpenAI, and with both or neither the previous choice stays. */
  function AutoSelect(useGemini: bool, apiKey: string, geminiKey: string): bool {
    if geminiKey != "" && apiKey == "" then true
    else if geminiKey == "" && apiKey != "" then false
    else useGemini
  }

  /** The provider the current choice names has a key. */
  predicate SelectedHasKey(useGemini: bool, apiKey: string, geminiKey: string) {
    if useGemini then geminiKey != "" else apiKey != ""
  }

  /** After the effect, whenever some key exists the selected provider has one; the
      effect is idempotent and keeps the choice when both or neither key exist. */
  lemma AutoSelectSound(useGemini: bool, apiKey: string, geminiKey: string)
    ensures (apiKey != "") != (geminiKey != "") ==>
      SelectedHasKey(AutoSelect(useGemini, apiKey, geminiKey), apiKey, geminiKey)
    ensures (apiKey != "") == (geminiKey != "") ==> AutoSelect(useGemini, apiKey, geminiKey) == useGemini
    ensures AutoSelect(AutoSelect(useGemini, apiKey, geminiKey), apiKey, geminiKey) == AutoSelect(useGemini, apiKey, geminiKey)
  {
  }

  /** The fields the submit path reads. */
  datatype Form = Form(prompt: string, imageData: string, apiKey: string, geminiKey: string,
                       cloudflare: string, useGemini: bool, isLoading: bool)

  /** The outcomes of the network exchanges one submit may make. */
  datatype Oracles = Oracles(upload: Upload, chat: Reply<string>, gemini: Reply<seq<Candidate>>)

  /** The panel's `callOpenAI`: without an OpenAI key it hands off to Gemini when a
      Gemini key and an image exist, and otherwise fails on the key guard. */
  function PanelCallOpenAI(f: Form, o: Oracles): Attempt {
    if f.apiKey == "" && f.geminiKey != "" && f.imageData != "" then
      CallGemini(f.prompt, f.imageData, f.geminiKey, f.cloudflare, o.upload, o.gemini)
    else CallOpenAI(f.prompt, f.imageData, f.apiKey, f.cloudflare, o.upload, o.chat)
  }

  /** `handleSubmit`'s choice: Gemini when it is selected, has a key and there is an
      image; the OpenAI path otherwise. `isLoading` is not consulted. */
  function Submit(f: Form, o: Oracles): Attempt {
    if f.useGemini && f.geminiKey != "" && f.imageData != "" then
      CallGemini(f.prompt, f.imageData, f.geminiKey, f.cloudflare, o.upload, o.gemini)
    else PanelCallOpenAI(f, o)
  }

  /** The voice panel as the submit handler sees it. */
  datatype VoiceView = VoiceView(modalOpen: bool, answer: string)

  /** Submit first closes an open voice panel and clears its answer. */
  function CloseVoice(v: VoiceView): (r: VoiceView)
    ensures !r.modalOpen
    ensures r.answer == if v.modalOpen then "" else v.answer
  {
    if v.modalOpen then VoiceView(false, "") else v
  }

  /** Once the OpenAI path has a key, the panel's copy does what the service does. */
  lemma PanelMatchesService(f: Form, o: Oracles)
    requires f.apiKey != ""
    ensures PanelCallOpenAI(f, o) == CallOpenAI(f.prompt, f.imageData, f.apiKey, f.cloudflare, o.upload, o.chat)
  {
  }

  /** A submit reaches Gemini exactly when there is a Gemini key and an image and either
      Gemini is selected or there is no OpenAI key. */
  lemma SubmitReachesGemini(f: Form, o: Oracles)
    ensures var a := Submit(f, o);
      (a.sent.Some? && a.sent.value.ToGemini?) <==>
        f.geminiKey != "" && f.imageData != "" && (f.useGemini || f.apiKey == "")
  {
  }

  /** Without an OpenAI key nothing goes to OpenAI: the submit either reaches Gemini
      (key and image present) or reports the missing key and sends nothing. */
  lemma NoOpenAIKeyHandoff(f: Form, o: Oracles)
    requires f.apiKey == ""
    ensures var a := Submit(f, o);
      && (f.geminiKey != "" && f.imageData != "" ==> a.sent.Some? && a.sent.value.ToGemini?)
      && (f.geminiKey == "" || f.imageData == "" ==> a == Attempt(None, Err(NoOpenAIKey)))
  {
  }

  /** The generate button's `disabled` expression. */
  predicate GenerateDisabled(f: Form) {
    || f.isLoading
    || (f.prompt == "" && f.imageData == "")
    || (f.apiKey == "" && f.geminiKey == "")
    || (f.useGemini && f.geminiKey == "")
    || (!f.useGemini && f.apiKey == "")
  }

  /** A click on an enabled button sends a request, except in two cases: a `data:`
      image with no Cloudflare hash on the OpenAI path, and Gemini selected with no
      image and no OpenAI key, where the missing OpenAI key is reported. */
  lemma EnabledSubmit(f: Form, o: Oracles)
    requires !GenerateDisabled(f)
    ensures var a := Submit(f, o);
      || a.sent.Some?
      || (a == Attempt(None, Err(NoCloudflare)) && IsDataUrl(f.imageData) && f.cloudflare == "")
      || (a == Attempt(None, Err(NoOpenAIKey)) && f.useGemini && f.imageData == "" && f.apiKey == "")
  {
    if IsDataUrl(f.imageData) {
      assert f.imageData != "";
    }
  }

  /** The second case happens: with only a Gemini key selected and a prompt but no
      image the button is enabled, yet the click only reports the OpenAI key. */
  lemma EnabledButNoOpenAIKey(f: Form, o: Oracles)
    requires !f.isLoading && f.useGemini && f.geminiKey != "" && f.apiKey == ""
    requires f.prompt != "" && f.imageData == ""
    ensures !GenerateDisabled(f)
    ensures Submit(f, o) == Attempt(None, Err(NoOpenAIKey))
  {
  }
}
