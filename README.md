# meetcompanion — a verified model of its decision logic

meetcompanion is an Electron desktop assistant. A React renderer:

- captures a screenshot or a pasted image;
- records the microphone;
- sends the text, image or transcript to OpenAI's chat or Whisper endpoints, or to Gemini;
- shows the answer, with its code fences rendered as code blocks.

The Electron host owns the window, the global shortcuts, the screen capturer and a development-only dump of recorded audio to a temporary file.

This project models the small deterministic procedures inside those components and proves what they promise:

- **Formatter** (`ResponseFormatter`): the code-fence formatter of the answer panel. The fence regular expression is written out by hand. A `while` loop over `exec` is proved, as method `Format`, to compute the segment list `Formatted(s)`. The lemmas about `Formatted` prove that:
  - the text segments and the matched fence spans, interleaved, reproduce the answer;
  - no text segment is empty and no two text segments are adjacent;
  - code never contains "```";
  - the language rules hold.
- **Answer providers** (`AnswerProviders`): the guard chains, request shaping and reply acceptance of the OpenAI and Gemini calls, in their service versions and in their copies inside the answer panel. Also covered: auto-selection of the provider, the submit routing and the generate button's disabled predicate. The OpenAI payload, whose content list the source builds by pushing into it, is the class `Payload`.
- **Transcription** (`Transcription`): post-processing of a transcription and of the chat answer about it, i.e. trimming, the empty-transcript fallback and the user message with its inverse.
- **Recording** (`WhisperRecording`, `WhisperToggle`, `VoicePanel`): three toggle state machines, written as classes over an abstract device:
  - the Whisper recording service;
  - the voice controller component;
  - the answer panel's own voice feature, whose finish is split at the point where it clears its recorder handles.
- **Screenshot service** (`ScreenshotService`): the renderer's screenshot service, including the first-image scan of a paste as a `for` loop.
- **Host** (`HostShortcuts`, `ScreenSources`, `AudioDump`):
  - the global-shortcut registry as a class over a `map`, with the window slot and the lifecycle events;
  - the screen-source selection;
  - the `data:` URL parse, extension rule and file name of the audio dump. The greedy regular expression is proved to pick the last ";base64,".
- **Settings and app shell** (`BrowserStorage`, `SettingsPanel`, `AppShell`):
  - `localStorage` as a class holding a `map`, plus the event queue;
  - the settings dialog (height validation through `parseInt`, save gating, save/load round trip);
  - the app shell's keyboard dispatch chain and its settings reload.

Every `fetch`, `getUserMedia`/`MediaRecorder`, `FileReader`, `desktopCapturer`, screen query, clock and file write is a parameter: an oracle value of type `Result`/`Option`, or a plain value standing for what the call returned.

The host file that is launched, `electron/main.js`, carries its own copies of the logic in `electron/modules/*`. Each contract is stated once. Where both copies exist, a row names the second copy too.

`JsString` models the JavaScript built-ins the code relies on: `\w`, `toLowerCase`, `startsWith`, `indexOf`, `split`, `trim`, `parseInt` without a radix, and template-literal printing of a number.

No component keeps more than one answer from being requested at a time. The only such rule is the generate button's disabled predicate, `AnswerProviders.GenerateDisabled`; the submit handler does not consult the loading flag. Recording is exclusive only through the panel's recorder-handle check and the service's recording flag. The model states no invariant beyond these.

## Model

| member | source | states |
|---|---|---|
| JsString.ToLowerSpec | src/hooks/useResponseFormatter.js:29 | `toLowerCase` keeps the length and lower-cases each character on its own |
| JsString.IndexOfFrom | src/services/screenshotService.js:40 | `indexOf` from an index returns the first occurrence at or after it, or -1 exactly when there is none |
| JsString.Split | electron/modules/audioManager.js:21 | the pieces of `split` hold no separator and join back to the input |
| JsString.SplitNone | electron/modules/audioManager.js:21 | a string without the separator splits into itself alone |
| JsString.SplitCons | src/services/geminiService.js:58-63 | the text before the first separator is the first piece and the rest splits on its own |
| JsString.TrimStart | src/components/Settings.js:134 | the result is a suffix, all dropped characters are whitespace, and it does not start with whitespace |
| JsString.TrimEnd | src/services/whisperService.js:62 | the result is a prefix, all dropped characters are whitespace, and it does not end with whitespace |
| JsString.Trim | src/services/whisperService.js:62 | `trim` returns an infix surrounded only by whitespace that neither starts nor ends with whitespace |
| JsString.TrimIdempotent | src/services/whisperService.js:105 | trimming a trimmed string changes nothing |
| JsString.TrimEmptyIff | src/components/whisper/WhisperController.js:28 | a string trims to "" if and only if it is all whitespace |
| JsString.TrimStartWhitespace | src/components/Settings.js:134 | an all-whitespace string loses everything to `TrimStart` |
| JsString.DigitRun | src/components/Settings.js:134 | the digit run is the longest digit prefix: every character in it is a digit and the next is not |
| JsString.DigitRunOf | src/components/Settings.js:134 | the digit run of digits followed by a non-digit is exactly those digits |
| JsString.TrimStartNone | src/components/Settings.js:134 | a string that does not start with whitespace is left alone |
| JsString.ParseIntPlain | src/components/Settings.js:134 | `parseInt` of a string without lead whitespace, sign or "0x" is the value of its digit prefix, or NaN without one |
| JsString.ParseIntOfDigits | src/components/Settings.js:134 | `parseInt` reads a leading decimal numeral and ignores what follows |
| JsString.ParseIntNotANumber | src/components/Settings.js:134 | without a sign or digit first, `parseInt` gives NaN |
| JsString.ParseIntNatToString | electron/modules/audioManager.js:23 | `parseInt` reads back the decimal text of any natural number |
| JsString.NatToString | electron/modules/audioManager.js:23 | the printed time stamp is a non-empty string of decimal digits whose value is the number, with no leading zero unless the number is 0 |
| ResponseFormatter.NextNewline | src/hooks/useResponseFormatter.js:16 | the newline found ends the info line: it is a '\n' at or after the start |
| ResponseFormatter.NextNewlineFirst | src/hooks/useResponseFormatter.js:16 | `[^\n]` up to the newline: no newline precedes the one found |
| ResponseFormatter.NextFence | src/hooks/useResponseFormatter.js:16 | the closing "```" found lies at or after the body's start |
| ResponseFormatter.NextFenceFirst | src/hooks/useResponseFormatter.js:16 | the lazy body stops at the first "```": none starts before it |
| ResponseFormatter.WordRun | src/hooks/useResponseFormatter.js:16 | the greedy `\w+` run fits in the info line |
| ResponseFormatter.WordRunMaximal | src/hooks/useResponseFormatter.js:16 | the tag run is made of word characters and cannot be extended |
| ResponseFormatter.MatchAtMeans | src/hooks/useResponseFormatter.js:16 | a match at a position exists if and only if "```", an info line that is empty or starts with a word character, a newline and a later "```" exist; the match spans exactly those |
| ResponseFormatter.MatchParts | src/hooks/useResponseFormatter.js:16 | a match consists of an opening "```", an accepted info line ended by its first newline, and the first "```" after that newline |
| ResponseFormatter.SpanFences | src/hooks/useResponseFormatter.js:16 | a span from an opening to a closing "```" is at least 7 characters and starts and ends with "```" |
| ResponseFormatter.BodyClean | src/hooks/useResponseFormatter.js:16 | a stretch in which no "```" starts contains none |
| ResponseFormatter.InfoTag | src/hooks/useResponseFormatter.js:16 | an accepted info line gives a tag of word characters, and a non-empty title only after a tag |
| ResponseFormatter.MatchShape | src/hooks/useResponseFormatter.js:16 | a match is at least 7 characters, opens and closes with "```", its body holds no "```", its tag is word characters and a title needs a tag |
| ResponseFormatter.Exec | src/hooks/useResponseFormatter.js:21 | `exec` from `lastIndex` returns a span of the answer at or after `lastIndex`, at least 7 long |
| ResponseFormatter.ExecFirst | src/hooks/useResponseFormatter.js:21 | `exec` returns the match at the earliest position it can, or nothing when no position matches |
| ResponseFormatter.Matches | src/hooks/useResponseFormatter.js:21-67 | the successive matches are in order, non-empty and do not overlap |
| ResponseFormatter.Segments | src/hooks/useResponseFormatter.js:22-64 | one segment per piece |
| ResponseFormatter.SegmentsAt | src/hooks/useResponseFormatter.js:22-64 | each piece becomes the segment at the same position |
| ResponseFormatter.SegmentsAppend | src/hooks/useResponseFormatter.js:22-64 | the segments of two runs of pieces are the two segment lists in order |
| ResponseFormatter.FlattenAppend | src/hooks/useResponseFormatter.js:22-74 | the text of two runs of pieces is the two texts in order |
| ResponseFormatter.PiecesStep | src/hooks/useResponseFormatter.js:22-66 | a turn of the loop gives the text before the match, if any, then the match, then continues at `lastIndex` |
| ResponseFormatter.PiecesDone | src/hooks/useResponseFormatter.js:69-74 | once `exec` fails only the non-empty tail remains |
| ResponseFormatter.FormatStep | src/hooks/useResponseFormatter.js:21-67 | one turn of the loop keeps the loop invariant `parts + Segments(rest) == Formatted(s)` |
| ResponseFormatter.FormatDone | src/hooks/useResponseFormatter.js:69-74 | after the last match the tail is one text segment, or none when empty |
| ResponseFormatter.Format | src/hooks/useResponseFormatter.js:7-80 | the loop returns exactly the segment list `Formatted(response)`; the copy at src/components/OpenAI.js:54-121 meets the same contract |
| ResponseFormatter.SliceSplit | src/hooks/useResponseFormatter.js:22-27 | adjacent slices concatenate to the joint slice |
| ResponseFormatter.CutReassembles | src/hooks/useResponseFormatter.js:21-74 | cutting at ordered spans drops, duplicates and reorders nothing |
| ResponseFormatter.Reassembles | src/hooks/useResponseFormatter.js:21-74 | the text pieces and matched spans, in order, reproduce the answer exactly |
| ResponseFormatter.WellFormedPrepend | src/hooks/useResponseFormatter.js:22 | a non-empty text before a match keeps the list well formed |
| ResponseFormatter.CutWellFormed | src/hooks/useResponseFormatter.js:22 | every text piece is non-empty and every text piece but the first follows a match |
| ResponseFormatter.TextSegmentsSeparated | src/hooks/useResponseFormatter.js:22-27 | no text segment is empty and no two text segments are adjacent |
| ResponseFormatter.CutFencedFrom | src/hooks/useResponseFormatter.js:59-64 | every code piece is one of the spans cut at |
| ResponseFormatter.MatchesAreMatches | src/hooks/useResponseFormatter.js:21 | every match the loop sees is a match of the expression at its index |
| ResponseFormatter.FenceFreeNotContains | src/hooks/useResponseFormatter.js:16 | a string with no "```" position does not contain "```" |
| ResponseFormatter.CodeSegmentsClean | src/hooks/useResponseFormatter.js:59-64 | no code segment's content contains "```" |
| ResponseFormatter.NoMatchIsPlainText | src/hooks/useResponseFormatter.js:69-74 | when nothing matches, the answer is one text segment, or none when empty |
| ResponseFormatter.InfoGroupsReassemble | src/hooks/useResponseFormatter.js:16 | a tag is captured exactly when the info line is non-empty, and it is never empty; a captured title is never empty; and tag and title give back the info line with at most the one separating space dropped |
| ResponseFormatter.UnterminatedStaysText | src/hooks/useResponseFormatter.js:69-74 | when no two "```" are far enough apart to enclose a newline, the whole answer is one text segment |
| ResponseFormatter.OpenerNeverClosed | src/hooks/useResponseFormatter.js:16-21 | an opener with no "```" after the newline ending its info line starts no code piece, whatever else the answer holds |
| ResponseFormatter.SpaceBeforeTagNoMatch | src/hooks/useResponseFormatter.js:16 | a space right after "```" prevents a match there |
| ResponseFormatter.NoNewlineStaysText | src/hooks/useResponseFormatter.js:16 | an answer without a newline stays text, whatever backticks it holds |
| ResponseFormatter.InlineFencesStayText | src/hooks/useResponseFormatter.js:16 | "```x```" is one text segment |
| ResponseFormatter.SpacedTagStaysText | src/hooks/useResponseFormatter.js:16 | "``` js\ncode\n```" is one text segment |
| ResponseFormatter.UnclosedStaysText | src/hooks/useResponseFormatter.js:69-74 | "```py\nprint(1)" is one text segment equal to the input |
| ResponseFormatter.CPlusPlusUnreachable | src/hooks/useResponseFormatter.js:38 | no matched tag lower-cases to "c++", so that alias is never used |
| ResponseFormatter.CPlusPlusInfoLine | src/hooks/useResponseFormatter.js:59-64 | the info line "c++" gives tag "c" and title "++" |
| ResponseFormatter.BodyKeepsNewline | src/hooks/useResponseFormatter.js:59-64 | "```js\ncode()\n```" has body "code()\n", and "```\n```" has an empty body and no tag |
| ResponseFormatter.EmptyAnswer | src/hooks/useResponseFormatter.js:11-14 | an empty answer gives no segments |
| ResponseFormatter.DefaultNotAliased | src/hooks/useResponseFormatter.js:29-57 | the default language "javascript" is not a key of the alias table |
| ResponseFormatter.UpperCaseTagAliased | src/hooks/useResponseFormatter.js:29-57 | "JS" is lower-cased before the lookup and becomes "javascript" |
| ResponseFormatter.TableExamples | src/hooks/useResponseFormatter.js:29-57 | "yml" maps to "yaml" and the unknown "zig" passes through |
| AnswerProviders.ErrorText | src/services/openaiService.js:95-98 | the body's error message when non-empty, otherwise the fixed fallback text |
| AnswerProviders.Payload.constructor | src/services/openaiService.js:27-38 | the payload starts with the chat model, the token limit and the text part alone |
| AnswerProviders.Payload.Push | src/services/openaiService.js:76-83 | a push appends one part and keeps the rest |
| AnswerProviders.BuildPayload | src/services/openaiService.js:27-84 | the built request is the text part, then one image part exactly when an image is given, with the uploaded variant, the data URL on upload failure, or the URL itself |
| AnswerProviders.OpenAIGuardsFirst | src/services/openaiService.js:14-24 | the missing key, then the `data:` image without an image host, then the missing prompt and image, each fail before any request |
| AnswerProviders.OpenAIContentShape | src/services/openaiService.js:27-84 | the content starts with the text part and has an image part exactly when an image is given |
| AnswerProviders.ImageUrlChoice | src/services/openaiService.js:43-83 | a non-`data:` image is passed through; a `data:` image is replaced by the uploaded variant, or kept when the upload fails |
| AnswerProviders.OpenAIReplies | src/services/openaiService.js:95-101 | past the guards, a failed reply gives the body's message or the fallback; otherwise the first choice's content |
| AnswerProviders.GeminiGuardsFirst | src/services/geminiService.js:14-20 | a missing key, then a missing image, fail before any request, even with a prompt |
| AnswerProviders.GeminiImageCases | src/services/geminiService.js:27-71 | a URL is referenced by `fileUri`; a `data:` image is inlined without an image host or on upload failure, and uploaded otherwise |
| AnswerProviders.InlineOfDataUrl | src/services/geminiService.js:58-63 | the inline MIME type and data are the pieces of the `data:` URL |
| AnswerProviders.GeminiAcceptance | src/services/geminiService.js:110-115 | the reply is accepted if and only if there is a candidate with parts, and then its first part's text is answered |
| AnswerProviders.AutoSelectSound | src/components/OpenAI.js:160-166 | with exactly one key the provider holding it is chosen; otherwise the choice stays; the rule is idempotent |
| AnswerProviders.CloseVoice | src/components/OpenAI.js:782-785 | submitting closes the voice dialog and clears its answer if it was open |
| AnswerProviders.PanelMatchesService | src/components/OpenAI.js:669-777 | with an OpenAI key the panel's copy behaves as the service's call |
| AnswerProviders.SubmitReachesGemini | src/components/OpenAI.js:779-792 | submit goes to Gemini exactly when Gemini is selected with its key and an image |
| AnswerProviders.NoOpenAIKeyHandoff | src/components/OpenAI.js:669-677 | without an OpenAI key the call hands off to Gemini only with a Gemini key and an image, and otherwise fails with nothing sent |
| AnswerProviders.EnabledSubmit | src/components/OpenAI.js:856-860 | an enabled button is not loading, has a prompt or image, and has the selected provider's key |
| AnswerProviders.EnabledButNoOpenAIKey | src/components/OpenAI.js:856-860 | the button can be enabled (Gemini selected with its key, a prompt, no image) while the submit fails for the missing OpenAI key |
| Transcription.TranscriptProperties | src/services/whisperService.js:42-62 | a transcript is trimmed, a missing text is "", and any non-OK reply reports the status text or "Unknown error" |
| Transcription.PrepareProperties | src/components/OpenAI.js:412-429 | something non-empty is always shown and sent; an empty transcript alone gives the marker, the explanatory request and a warning |
| Transcription.UserMessageRoundTrip | src/services/whisperService.js:84-86 | the transcript can be read back from the message; the message starts with the prompt, or with the fixed request when the prompt is empty |
| Transcription.UserMessageInjective | src/components/OpenAI.js:453-455 | different transcripts give different messages for the same prompt |
| Transcription.ChatAnswerProperties | src/services/whisperService.js:102-105 | the answer is trimmed; every non-OK status gives "Chat Completion API error"; content is answered trimmed |
| WhisperRecording.WhisperService.constructor | src/services/whisperService.js:145-157 | a new service holds nothing and is not recording |
| WhisperRecording.WhisperService.OnDataAvailable | src/services/whisperService.js:182-186 | only a non-empty chunk is appended, nothing else changes |
| WhisperRecording.WhisperService.Cleanup | src/services/whisperService.js:236-247 | every field is back to idle |
| WhisperRecording.WhisperService.StopRecording | src/services/whisperService.js:197-233 | without a running recorder nothing changes and null is returned; otherwise the service is idle whatever reading and saving do |
| WhisperRecording.WhisperService.StartRecording | src/services/whisperService.js:160-176 | a running recording is stopped first; recording exactly when the microphone was obtained, over a fresh recorder; the chunk list is emptied whenever the start gets past that stop, even when the microphone is refused |
| WhisperRecording.WhisperService.CheckMicrophonePermission | src/services/whisperService.js:250-259 | granted exactly when the device hands out a stream |
| WhisperRecording.StopAndStartOutcomes | src/services/whisperService.js:197-233 | a stop yields the blob of exactly the chunks recorded as "audio/webm" when reading and saving succeed; a start succeeds exactly when the microphone does |
| WhisperToggle.Reported | src/components/whisper/WhisperController.js:46 | the reported message is the error's own when non-empty, otherwise the default, never empty |
| WhisperToggle.WhisperController.constructor | src/components/whisper/WhisperController.js:6-11 | the component starts neither recording nor processing |
| WhisperToggle.WhisperController.BeginStop | src/components/whisper/WhisperController.js:15-17 | a stop marks the component processing, which disables the button |
| WhisperToggle.WhisperController.Fail | src/components/whisper/WhisperController.js:44-49 | a failure reports its message and clears both flags |
| WhisperToggle.WhisperController.ToggleRecording | src/components/whisper/WhisperController.js:13-50 | a toggle starts when idle, or stops, transcribes only a returned blob, chats only for a non-empty trimmed prompt; a start records exactly when it succeeds, and a stop ends with both flags false unless the stop never settles, which leaves both true |
| VoicePanel.Panel.constructor | src/components/OpenAI.js:235-239 | the panel starts with no recorder, stream or chunks and an empty dialog |
| VoicePanel.Panel.Press | src/components/OpenAI.js:235-239 | a live recorder handle makes the press a finish; otherwise it starts |
| VoicePanel.Panel.Start | src/components/OpenAI.js:241-298 | a missing key or microphone failure reports and leaves no recorder; otherwise a new recorder with an empty chunk list |
| VoicePanel.Panel.OnData | src/components/OpenAI.js:286-293 | only chunks with data are appended |
| VoicePanel.Panel.Finish | src/components/OpenAI.js:300-360 | without a key the recorder keeps running; a failure to stop clears both handles and reports the error; a save whose reader never loads leaves the finish stuck with both handles set; otherwise both handles are cleared and the audio of exactly the chunks recorded is handed to the upload |
| VoicePanel.Panel.Upload | src/components/OpenAI.js:392-494 | a Whisper failure is reported; otherwise the prepared transcript is shown and sent in the user message, and the answer or the chat error is shown |
| VoicePanel.PressDuringUpload | src/components/OpenAI.js:359-360 | a press after a finish handed off its audio starts a new recording |
| ScreenshotService.CaptureScreenshot | src/services/screenshotService.js:9-24 | no bridge fails, a falsy capture fails, otherwise the capture is returned unchanged |
| ScreenshotService.FirstImageIndex | src/services/screenshotService.js:39-48 | the index of the first item whose type contains "image", and none exactly when no item does |
| ScreenshotService.HandleImagePaste | src/services/screenshotService.js:31-53 | null without items or without an image item; otherwise the first image item's data URL |
| ScreenshotService.ForwardShortcut | src/services/screenshotService.js:60-64 | forwarded exactly when the bridge exists, with the accelerator and type unchanged |
| HostShortcuts.DeliverOnlyWhenVisible | electron/modules/shortcutManager.js:55-72 | a trigger sends exactly the registered type once, and only to a live visible window, focusing first, and again after a screenshot; the copy at electron/main.js:262-276 meets the same contract |
| HostShortcuts.MovementShifts | electron/modules/shortcutManager.js:12-42 | Up, Down, Left and Right move by 50 along one axis; nothing happens without a window |
| HostShortcuts.MovementAccelerators | electron/modules/shortcutManager.js:9 | the modifier is "Alt" on win32 and "Option" elsewhere, and the four accelerators differ |
| HostShortcuts.UnboundMoveThrows | electron/main.js:198-226 | the host's movement handlers, as written, throw instead of moving a live window |
| HostShortcuts.RebindLatestWins | electron/modules/shortcutManager.js:48-54 | unregister then register leaves one binding, the latest, and every other binding unchanged |
| HostShortcuts.Host.constructor | electron/main.js:183-190 | no window yet, no bindings, no effects |
| HostShortcuts.Host.SetupShortcut | electron/modules/shortcutManager.js:48-76 | the accelerator is bound to the delivery of its type, replacing any earlier binding; the copy at electron/main.js:254-280 meets the same contract |
| HostShortcuts.Host.SetupMovement | electron/modules/shortcutManager.js:7-42 | the four movement accelerators are bound to working moves by their offsets, an accelerator already held keeping its callback |
| HostShortcuts.Host.UnregisterAll | electron/main.js:229-233 | every binding is removed |
| HostShortcuts.Host.Trigger | electron/modules/shortcutManager.js:55-72 | an unbound accelerator does nothing; a bound one applies its handler's effects to the slot |
| HostShortcuts.Host.CreateWindow | electron/main.js:30-148 | a window that is built becomes the slot; a failure leaves the slot as it was |
| HostShortcuts.Host.Ready | electron/main.js:183-227 | the window created becomes the slot, and the four movement accelerators are bound to handlers that call an unbound `moveWindow` |
| HostShortcuts.Host.OnClosed | electron/main.js:135-138 | the window slot becomes null |
| HostShortcuts.Host.Activate | electron/main.js:243-251 | a window is recreated only when the slot is null |
| HostShortcuts.MovementBound | electron/modules/shortcutManager.js:12-42 | on an empty registry each direction's accelerator is bound to the handler for its offset, and nothing else is bound; the copy at electron/main.js:200-226 meets the same contract with the unbound handler |
| HostShortcuts.PressAfterReady | electron/main.js:183-226 | after 'ready' with a live window, a movement press throws and the window stays where it was |
| HostShortcuts.PressAfterSetup | electron/modules/shortcutManager.js:12-86 | with a live window and the module's movement shortcuts, a press moves the window by its offset and the opposite press moves it back |
| ScreenSources.FindDisplay | electron/modules/screenshotManager.js:42 | the index of the first source showing the display, or none exactly when no source does |
| ScreenSources.SelectSource | electron/modules/screenshotManager.js:42 | the selected source is one of the sources: one showing the display when any does, else the first |
| ScreenSources.SelectFirstMatch | electron/modules/screenshotManager.js:42 | the first source showing the display is selected |
| ScreenSources.CaptureProperties | electron/modules/screenshotManager.js:7-51 | no window fails before any source query; no sources fails; a success is the thumbnail of the source selected for the display nearest the window's corner; the copy at electron/main.js:283-321 meets the same contract |
| AudioDump.LastOccurrence | electron/modules/audioManager.js:15 | the marker position found is the last one in range, or none exactly when there is none |
| AudioDump.ParseSound | electron/modules/audioManager.js:15-18 | a successful parse splits the input into "data:", a MIME type, ";base64," and a payload, with no line break |
| AudioDump.ParseGreedy | electron/modules/audioManager.js:15-18 | whenever the pattern can match, the parse succeeds with the longest MIME type |
| AudioDump.LineBreakRejected | electron/modules/audioManager.js:15-16 | a line terminator anywhere makes the input invalid |
| AudioDump.NoLaterMarker | electron/modules/audioManager.js:15-18 | a payload without ";base64," holds no later marker |
| AudioDump.ParseRoundTrip | electron/modules/audioManager.js:15-18 | a data URL built from a MIME type and a payload without ";base64," parses back to both |
| AudioDump.Extension | electron/modules/audioManager.js:21 | the extension is never empty |
| AudioDump.ExtensionOfSubtype | electron/modules/audioManager.js:21 | the extension is the MIME subtype up to the next '/' |
| AudioDump.ExtensionDefault | electron/modules/audioManager.js:21 | without a subtype the extension is "webm" |
| AudioDump.FileNameParts | electron/modules/audioManager.js:22-23 | the file name is the prefix, the decimal time stamp, a dot and the extension |
| AudioDump.FileNameInjective | electron/modules/audioManager.js:22-23 | different times give different file names |
| AudioDump.SaveAudioProperties | electron/modules/audioManager.js:11-32 | outside development nothing is written and null returned; an invalid URL is rejected before any write; otherwise the payload is written to the temporary path, and the path returned is the path written; the copy at electron/main.js:330-351 meets the same contract |
| AudioDump.SaveFromRenderer | src/services/whisperService.js:118-139 | null without the bridge or on any rejection; the host's answer otherwise; no answer at all when the reader never loads |
| AudioDump.RendererSeesWrittenPath | src/services/whisperService.js:118-139 | the renderer gets a path exactly in development, for a valid URL and a successful write, and it is the path written |
| BrowserStorage.Browser.constructor | src/components/Settings.js:33-38 | the storage holds the given items and no events |
| BrowserStorage.Browser.SetItem | src/components/Settings.js:101-106 | one item is replaced or added and nothing else changes |
| BrowserStorage.Browser.Dispatch | src/components/Settings.js:109 | one event is appended and the items are untouched |
| SettingsPanel.SavedItems | src/components/Settings.js:100-106 | a save writes all six items, click-through as "true"/"false", and leaves every other key as it was |
| SettingsPanel.LoadSavedRoundTrip | src/components/Settings.js:33-61 | loading after a save restores every non-empty value, click-through exactly, and keeps the current value for empty ones |
| SettingsPanel.LoadSavedExact | src/components/Settings.js:33-61 | with every text value non-empty, loading after a save gives back exactly the saved settings |
| SettingsPanel.HeightOfDigits | src/components/Settings.js:132-137 | a height starting with a numeral is accepted exactly when the numeral lies in [1, 100] |
| SettingsPanel.HeightTrailingText | src/components/Settings.js:132-137 | "5x" is accepted |
| SettingsPanel.HeightLowerBound | src/components/Settings.js:132-137 | "1" is accepted |
| SettingsPanel.HeightUpperBound | src/components/Settings.js:132-137 | "100" is accepted |
| SettingsPanel.HeightBelowRange | src/components/Settings.js:132-137 | "0" is rejected |
| SettingsPanel.HeightAboveRange | src/components/Settings.js:132-137 | "101" is rejected |
| SettingsPanel.HeightNotANumber | src/components/Settings.js:132-137 | "abc" is rejected |
| SettingsPanel.Settings.constructor | src/components/Settings.js:9-16 | the dialog starts with the defaults, height "100", and not saved |
| SettingsPanel.Settings.Load | src/components/Settings.js:33-61 | the stored values replace the current ones only when present and non-empty; click-through is true only for "true" |
| SettingsPanel.Settings.Edit | src/components/Settings.js:117-130 | an edit sets exactly its field |
| SettingsPanel.Settings.ChangeHeight | src/components/Settings.js:132-137 | an accepted input replaces the height; a rejected one leaves it; an accepted height stays accepted |
| SettingsPanel.Settings.ToggleClickThrough | src/components/Settings.js:139-141 | click-through flips and nothing else changes |
| SettingsPanel.Settings.Save | src/components/Settings.js:100-115 | the six items are written, then 'settings-updated' is dispatched, and the dialog is marked saved |
| SettingsPanel.Settings.KeyDown | src/components/Settings.js:143-148 | Enter saves and is prevented exactly when the Save button is enabled, i.e. the key field is non-empty; any other key changes nothing |
| AppShell.ToggleChecksFirst | src/App.js:59-66 | the modifier with ',' or '<' toggles settings, open or not, and only that combination does |
| AppShell.ScreenshotKeySkipped | src/App.js:69-71 | the modifier with 's' returns with no action |
| AppShell.SettingsOpenIgnores | src/App.js:74-76 | while settings are open every other key is ignored |
| AppShell.ModifierRequired | src/App.js:57-126 | no key without a modifier is prevented or acted on |
| AppShell.GenerateShortcut | src/App.js:79-95 | the modifier with Enter is prevented and clicks generate when it is enabled, else asks for a forced call when an image is shown |
| AppShell.ResetShortcut | src/App.js:98-104 | the modifier with 'r' is prevented and dispatches 'reset-openai' |
| AppShell.ModeShortcuts | src/App.js:106-122 | the modifier with 'p' or 'm' clicks the problem or solution button when it is shown |
| AppShell.EmptiedKeysKept | src/App.js:27-31 | saving an emptied Gemini key or image-host hash does not clear the app's copy; a non-empty one replaces it |
| AppShell.App.constructor | src/App.js:7-12 | settings closed, height "100", empty keys |
| AppShell.App.LoadSettings | src/App.js:16-41 | each value is replaced by its stored string only when that is non-empty |
| AppShell.App.ToggleSettings | src/App.js:135-137 | the settings flag flips and nothing else changes |
| AppShell.App.CloseSettings | src/App.js:139-142 | the settings flag is cleared and nothing else changes |
| AppShell.App.HandleKeyDown | src/App.js:57-126 | the outcome is the dispatch chain's, applied: a toggle flips the flag and an event is dispatched once |
| AppShell.SaveFromDialog | src/App.js:48 | a save in the dialog writes the items, dispatches the event, and the app takes each saved non-empty value |

## Left out

- All network calls (OpenAI chat and Whisper, Gemini, the image host upload): each is an oracle value carrying only the fields the code reads. Request headers, form encoding and JSON parsing are not modelled.
- `MediaRecorder`, `getUserMedia`, `FileReader`, `Blob`, `track.stop()` and the 1000 ms timeslice: the device is abstract; constructing or starting a recorder is taken not to throw.
- The stop-then-assign-`onstop` ordering in the panel's finish is an asynchronous race. `VoicePanel.Panel.Finish` runs the stop to completion at once.
- Other interleavings of awaits are not modelled. The panel's finish is split at the point where its handles are cleared (`Finish`/`Upload`). `WhisperToggle.WhisperController.ToggleRecording` runs a stop atomically after `BeginStop`.
- WhisperRecording.WhisperService.StopRecording: the save in the reader's `onloadend` uses the bridge directly, so a rejected save leaves the stop's promise unsettled. The model returns it as an outcome instead of a promise that never settles.
- The paste handler inside the answer panel reads every image item concurrently, and which one wins depends on reader completion order. Only the screenshot service's first-image version is modelled.
- Timers that clear status texts or close the settings dialog after a save, and the copy confirmations.
- Floating point: `temperature`, `topP` and the duration estimate of a recording.
- Rendering and DOM: the formatted-response component, the Whisper assistant view, the UI primitives, scrolling and its arrow-key handlers. The settings dialog's Escape listener is left out; `AppShell.App.CloseSettings` models the callback it calls. The device enumeration of the settings dialog is left out too.
- Window and process lifecycle beyond the window slot: window creation, the platform configuration, the preload bridge, the test runner and process spawning.
- The generate shortcut queries `.submit-button` and `.image-preview`, which no component shown renders, and `force-openai-call` has no listener. The page is a set of abstract booleans.
- ResponseFormatter.Language: the alias table is a finite map. JavaScript's prototype lookups (`languageMap['constructor']`, `['__proto__']`) return inherited members, which the model does not.
- ScreenSources.SelectSource: display identifiers are compared by plain equality. The types Electron uses for `display_id` and `screen.id` are not modelled.
- The nearest-display query is a function parameter. Screen geometry is not modelled.
- AudioDump.TempPath: `path.join` normalisation is not modelled; the temporary directory is taken to be in normal form. The base64 decoding of the payload (`Buffer.from`) is not modelled either; the write carries the base64 text.
- HostShortcuts.Host.SetupShortcut: registration is taken to succeed. An accelerator held by another application is not modelled.
- JsString.ToLower: only ASCII letters are mapped; the answers' tags are word characters, which are ASCII.
- `type="number"` input sanitisation by the browser is not modelled: the height handler is given the raw string.
- Engine-generated error texts (a `TypeError` when reading a missing `content`) are fixed strings.
- All `console.*` and `logToMain` logging.

## Findings

| source | as written | input that shows it | evidently intended | confidence | as-written member | corrected member |
|---|---|---|---|---|---|---|
| electron/main.js:198-226 | the four movement handlers compute the new position and call `moveWindow`, which this file neither defines nor imports, so each press throws a ReferenceError | pressing CommandOrControl+Option+Up while the window is live | move the window by 50 pixels, as `moveWindow` in electron/modules/shortcutManager.js:81-86 does | not executed | HostShortcuts.PressAfterReady | HostShortcuts.PressAfterSetup |
