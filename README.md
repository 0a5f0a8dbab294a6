# Speech recognition session controller

A Dafny model of the session controller of the `SpeechRecognition` React
component. The component wraps the browser's speech recognizer. It keeps two flags,
`isListening` and `isMuted`. It also keeps an append-only transcript of `{id, text}` lines,
an interim-text slot `currentText`, and a line-id counter `lineIdRef`.
Two kinds of input drive it:

- commands from the page's owner: start, stop, toggle mute and reset;
- callbacks from the recognizer: result, error and end.

Files:

- `text.dfy` (module `Text`): `String.prototype.trim` over ASCII whitespace.
  `TrimStart` and `TrimEnd` state what each keeps and drops. A lemma
  characterises `Trim` by what it keeps, and idempotence follows from it.
- `results.dfy` (module `RecognitionResults`): the result list handed to the
  result callback. `Joined(rs, isFinal)` is the specification: the transcripts of
  one finality, concatenated in order. `Accumulate` is the callback's loop,
  proved against that specification. Lemmas give the fold's algebra: splitting
  a batch, when the text is empty, uniform batches, and that the two texts split
  the batch's characters between them.
- `session.dfy` (module `SpeechSession`): the controller as a class with the
  component's state. `supported` stands for "a recognizer object exists".
  A ghost log `calls` records every `start()` and `stop()` issued to the recognizer.
  `Valid()` is the class invariant: the counter equals the number of lines,
  line `i` has id `i`, and the controller listens only when a recognizer exists.
  Every handler keeps it. The status label and colour are pure functions of the two flags.
- `scenarios.dfy` (module `SessionScenarios`): clients of the controller that
  are proved from its contracts alone. They cover a final result, an interim result,
  interim then final, reset after two lines, toggling mute twice, muting followed
  by an end callback and an unmute, an error while muted, and a browser without a recognizer.

Where the code differs from the component's intended design, the model
follows the code:

- The append guard tests the untrimmed final text for emptiness. A final
  fragment of whitespace alone therefore appends a line whose text is empty
  (`WhitespaceFinalAppendsEmptyLine`).
- When the batch's final text is non-empty, the interim slot is cleared. It is not set
  to the batch's interim text, which is discarded (`OnResult`, `FinalBatchHasInterimText`).
  A batch whose final fragments are all empty sets the slot to its interim text.
- Toggle mute flips `isMuted` even when not listening. The status can then read
  "Muted" while nothing listens (`ToggleMute`, `UnsupportedScenario`).
- The error and end callbacks do not clear the interim slot, and neither does stop.

## Model

| member | source | states |
|---|---|---|
| Text.TrimStart | src/components/SpeechRecognition.tsx:47 | the result is a suffix of the input that does not start with whitespace, and every dropped character is whitespace |
| Text.TrimEnd | src/components/SpeechRecognition.tsx:47 | the result is a prefix of the input that does not end with whitespace, and every dropped character is whitespace |
| Text.Trim | src/components/SpeechRecognition.tsx:47 | the trimmed line text is empty exactly when the input is all whitespace; otherwise it neither starts nor ends with whitespace |
| Text.TrimOfPadded | src/components/SpeechRecognition.tsx:47 | trimming whitespace-padded text that has no whitespace at either end gives back exactly that text |
| Text.TrimIdempotent | src/components/SpeechRecognition.tsx:47 | trimming twice is the same as trimming once |
| RecognitionResults.Accumulate | src/components/SpeechRecognition.tsx:32-42 | the loop from `resultIndex` to the end gives `finalTranscript` = the final fragments concatenated in order and `interimTranscript` = the rest; results before `resultIndex` are ignored, and an index past the end gives two empty strings |
| RecognitionResults.JoinedAppend | src/components/SpeechRecognition.tsx:35-42 | the fold distributes over concatenation: a batch split anywhere folds to the concatenation of the halves' folds |
| RecognitionResults.JoinedEmptyIff | src/components/SpeechRecognition.tsx:44 | the final text is empty (so no line is appended) exactly when every final fragment of the batch is empty |
| RecognitionResults.JoinedSingle | src/components/SpeechRecognition.tsx:35-41 | a one-result batch puts its transcript on its own side and nothing on the other |
| RecognitionResults.JoinedUniform | src/components/SpeechRecognition.tsx:35-42 | a batch whose results all share one finality gives all its text to that side and the empty string to the other |
| RecognitionResults.JoinedPartitionsCharacters | src/components/SpeechRecognition.tsx:35-42 | final and interim text together hold exactly the batch's characters, as multisets: none lost, duplicated or invented |
| SpeechSession.SessionController.constructor | src/components/SpeechRecognition.tsx:14-19 | the mount state: not listening, not muted, no lines, empty interim text, counter 0, no recognizer call |
| SpeechSession.SessionController.OnResult | src/components/SpeechRecognition.tsx:31-54 | a non-empty untrimmed final text appends exactly one line with id = old counter and the trimmed text, increments the counter and clears the interim slot; otherwise lines and counter are unchanged and the interim slot becomes the interim text; flags and recognizer calls never change; the id invariant is kept |
| SpeechSession.SessionController.OnError | src/components/SpeechRecognition.tsx:56-59 | listening becomes false and nothing else changes |
| SpeechSession.SessionController.OnEnd | src/components/SpeechRecognition.tsx:61-63 | listening becomes false and nothing else changes |
| SpeechSession.SessionController.StartListening | src/components/SpeechRecognition.tsx:73-79 | with a recognizer and not listening: listening, unmuted, exactly one `start()` logged; otherwise no change and no call (idempotent while listening) |
| SpeechSession.SessionController.StopListening | src/components/SpeechRecognition.tsx:81-86 | with a recognizer and listening: not listening, exactly one `stop()` logged, muted unchanged; otherwise no change and no call |
| SpeechSession.SessionController.ToggleMute | src/components/SpeechRecognition.tsx:88-97 | muted always flips; the call is `start()` if listening and muted, `stop()` if listening and unmuted, none if not listening; listening and transcript unchanged |
| SpeechSession.SessionController.ResetTranscript | src/components/SpeechRecognition.tsx:99-103 | lines emptied, interim cleared, counter 0 (so the next line gets id 0); flags unchanged and no recognizer call |
| SpeechSession.SessionController.Unmount | src/components/SpeechRecognition.tsx:66-70 | the cleanup logs one `stop()` when a recognizer exists and changes no state |
| SpeechSession.MicrophoneStatus | src/components/SpeechRecognition.tsx:105-109 | the label is "Muted" exactly when muted, whatever the listening flag; "Listening" exactly when listening and unmuted; "Off" exactly when neither |
| SpeechSession.MicrophoneStatusColor | src/components/SpeechRecognition.tsx:111-115 | the colour follows the same three-way priority: red exactly when muted, blue exactly when listening and unmuted, grey otherwise |
| SpeechSession.StatusAndColorAgree | src/components/SpeechRecognition.tsx:105-115 | two flag settings share a label exactly when they share a colour |
| SpeechSession.WhitespaceFinalAppendsEmptyLine | src/components/SpeechRecognition.tsx:44-47 | a whitespace-only final fragment passes the append guard yet trims to the empty text |
| SpeechSession.FinalBatchHasInterimText | src/components/SpeechRecognition.tsx:44-53 | a batch with an interim and a non-empty final fragment yields both texts, so clearing the slot discards real interim text |
| SpeechSession.IdsIncreaseAndNextIsFresh | src/components/SpeechRecognition.tsx:45-46 | under the class invariant `Valid()` (counter = number of lines, line i has id i, kept by every handler including reset at :100-102), ids strictly increase along the log and the next id belongs to no existing line |
| SessionScenarios.ToggleMuteTwice | src/components/SpeechRecognition.tsx:88-97 | toggling mute twice while listening restores the muted flag, keeps listening, and logs stop-then-start (from unmuted) or start-then-stop (from muted) |
| Text.TrimOfTrimmed | src/components/SpeechRecognition.tsx:47 | text with no whitespace at either end is left unchanged by trim |

## Left out

- Rendering and styling (`SpeechRecognition.tsx` lines 117-243) and the presentational components `Transcript.tsx`, `MicrophoneControlButtons.tsx`, `Header.tsx` and `Microphone.tsx`. The status helpers in `Microphone.tsx` duplicate the ones modelled here.
- Browser capability detection through `window` (`SpeechRecognition.tsx` lines 23-24 and 234, `BrowserSupport.tsx`): reduced to the `supported` constant given at construction.
- The recognizer itself: its vendor-prefixed constructor, its `continuous`, `interimResults` and `lang` settings, and asynchronous event delivery. Callbacks are methods called one at a time. No timing between a `stop()` and a later end callback is modelled.
- Each result's alternatives list: the model keeps only the transcript of the first alternative, the one the callback reads.
- Timestamps: `new Date()` becomes the opaque integer `now` passed to `OnResult`, and the locale-dependent `toLocaleTimeString()` display is not modelled.
- The error callback's `console.error` logging and its error code (I/O only).
- React's state batching and deferred updater functions. Each handler is modelled as applying its updates at once, in program order. The counter increment inside the transcript updater is one such update; an updater that React runs twice is not modelled.
- The recognizer's `start()` and `stop()` are assumed never to throw. In the source, `setIsMuted` (line 96) runs only after the call at line 91 or 93 returns, so a throwing call would leave the muted flag unflipped; the model always flips it.
- Text.Trim: strips only ASCII whitespace (space, tab, line feed, carriage return, vertical tab, form feed). JavaScript's trim also strips the Unicode space separators and line terminators.
