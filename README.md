# Live-scribe transcription core in Dafny

This project models two parts of a browser speech-to-text application and proves properties about them.

- **The transcription provider** (`TranscriptionProvider`) holds the state that the UI shows: `isRecording`, `transcript`, `isProcessingFile`, `uploadedFileName`, the selected language and the stored live recogniser. Recogniser events and user operations change this state.
  - On the live-recording path, each `result` event folds the final segments of the event's window into one text. That text is appended after a single space.
  - On the file path, each final segment is appended after its own space.
- **The inference worker** keeps one module-level `transcriber` slot and handles `message` events.
  - If the slot is empty, the worker posts `initiate` and loads the speech pipeline. It posts a progress event for each download or init notification. When the load succeeds, it fills the slot and posts `done` and `ready`.
  - It then transcribes the audio and posts each partial result as `update`, followed by `complete`.
  - Anything thrown along the way is caught and posted as a single `error` event.

Modules:

- `Wrappers`: the `Option` and `Result` datatypes.
- `TranscriptText`: the string-accumulation rules. These are the live loop (`CollectSegments`), the two `setTranscript` updaters, and reference definitions that build the final texts from the front.
- `TranscriptionContext`: the provider as a class. There is one method per handler or operation, and each method's frame names the fields it may change.
- `WorkerProtocol`: the status events and the handler as a function of the slot and the message (`Handle`, built from `LoadAttempt` and `TranscribeAttempt`). It also holds runs of messages (`Run`), the protocol as an automaton over adjacent events (`Follows`, `Protocol`), and the lemmas.
- `TranscriptionWorker`: the worker's module scope as a class. `transcriber` is the slot and `posted` is the log of `postMessage` calls. Its methods are proved against `WorkerProtocol`.

The platform supplies several things that are not modelled as code: the speech recogniser, the microphone permission, the audio element and the speech-recognition library. They appear as inputs instead.
- Boolean parameters say whether a recogniser exists and whether the microphone was granted.
- Recogniser events are method calls.
- The library is a pair of oracle functions, `load` and `run`. Each returns the callbacks it would make (progress notifications or partial results) and then either a value or a thrown value.

The repository's design description also mentions several things the code does not have: a model-lifecycle state machine with `loadModel`/`transcribe`/`cancel`, stereo downmix and resampling, a generation counter for stale results, busy errors between the live and file paths, and a warm-up call with null audio. The model follows the code and includes none of them. In the code, a message whose `model` differs from the loaded one reuses the loaded pipeline. There is no model switch.

## Model

| member | source | states |
|---|---|---|
| `TranscriptText.CollectSegments` | src/context/TranscriptionContext.tsx:58-69 | The live loop visits positions `resultIndex` to the end. Its final accumulator is the final texts of that window, concatenated in index order. Its interim accumulator is the interim texts. |
| `TranscriptText.FinalsInOrder` | src/context/TranscriptionContext.tsx:62-69 | The live fold's final text equals the concatenation of the final segments' texts in index order. The reference list is built from the front. |
| `TranscriptText.InterimTextIgnored` | src/context/TranscriptionContext.tsx:64-68 | Interim texts never reach the transcript. Two lists with the same flags and the same final texts give the same result on both paths. |
| `TranscriptText.EarlierResultsIgnored` | src/context/TranscriptionContext.tsx:62 | Results before `resultIndex` do not affect the update on either path. |
| `TranscriptText.LiveAppend` | src/context/TranscriptionContext.tsx:71-78 | The live updater keeps `prev` as a prefix. A non-empty final text F gives exactly `prev`, one space, then F. An empty (falsy) F leaves `prev` unchanged. |
| `TranscriptText.LiveUpdate` | src/context/TranscriptionContext.tsx:71-78 | After a live result event, the old transcript is a prefix of the new one. |
| `TranscriptText.NoFinalNoChange` | src/context/TranscriptionContext.tsx:71-78 | An event with no final segment in its window leaves the transcript unchanged on both paths. |
| `TranscriptText.FileUpdate` | src/context/TranscriptionContext.tsx:169-176 | After a file result event, the old transcript is a prefix of the new one. The new transcript grows by one space per final segment plus the final texts. |
| `TranscriptText.SpacedInOrder` | src/context/TranscriptionContext.tsx:170-175 | The file path appends one space and the text for each final segment, in index order. |
| `TranscriptText.SpacedLength` | src/context/TranscriptionContext.tsx:170-175 | `k` final segments add exactly `k` separating spaces on the file path. |
| `TranscriptText.PathsCompared` | src/context/TranscriptionContext.tsx:73-74 | Compares the two paths for every event. When the window's final text is non-empty, the live path adds one space per event, not per segment. With one final segment the two paths then agree. With `k` final segments the file path's result is `k - 1` characters longer. When the final text is empty, the live path leaves the transcript unchanged. The file path still grows by `k` spaces. |
| `TranscriptText.EmptyFinalDiverges` | src/context/TranscriptionContext.tsx:73-74 | One final segment with empty text: the live path leaves `"a"` as it is, while the file path gives `"a "`. |
| `TranscriptionContext.IsAudioType` | src/context/TranscriptionContext.tsx:135 | The upload guard holds exactly when `"audio/"` is a prefix of the MIME type. |
| `TranscriptionContext.IsAudioTypeExactly` | src/context/TranscriptionContext.tsx:135 | The upload guard passes exactly the MIME types made of `"audio/"` followed by anything. |
| `TranscriptionContext.TranscriptionProvider.constructor` | src/context/TranscriptionContext.tsx:25-30 | The initial state: not recording, empty transcript, no recogniser, language `en-US`, not processing, no file name. |
| `TranscriptionContext.TranscriptionProvider.StartRecording` | src/context/TranscriptionContext.tsx:32-117 | Without a recogniser, nothing changes. When the microphone is granted, a live session is stored; it captures the language and the current `isRecording`. When permission is refused, `isRecording` becomes false. |
| `TranscriptionContext.TranscriptionProvider.OnLiveStart` | src/context/TranscriptionContext.tsx:53-56 | The live `onstart` sets `isRecording` and changes nothing else. |
| `TranscriptionContext.TranscriptionProvider.OnLiveResult` | src/context/TranscriptionContext.tsx:58-79 | The new transcript is the live update of the old one, the old one is a prefix of it, and no other field changes. |
| `TranscriptionContext.TranscriptionProvider.OnLiveError` | src/context/TranscriptionContext.tsx:81-94 | Any live error clears `isRecording` and changes nothing else. |
| `TranscriptionContext.TranscriptionProvider.OnLiveEnd` | src/context/TranscriptionContext.tsx:96-102 | The live `onend` restarts exactly when the captured `isRecording` was true. It changes no provider state. The Findings section shows what this means for sessions started from the controls. |
| `TranscriptionContext.StartFromControls` | src/components/TranscriptionControls.tsx:33 | The controls call `startRecording` only while `isRecording` is false. The stored session therefore captures `false`. Once it has started, its `onend` still does not restart it. |
| `TranscriptionContext.TranscriptionProvider.OnLiveEndCurrent` | src/context/TranscriptionContext.tsx:96-102 | The corrected `onend` reads the current `isRecording`. It restarts exactly while the provider is recording. |
| `TranscriptionContext.StartFromControlsCurrent` | src/context/TranscriptionContext.tsx:96-102 | With the corrected `onend`, a session started from the controls and then ended while recording is restarted. |
| `TranscriptionContext.TranscriptionProvider.StopRecording` | src/context/TranscriptionContext.tsx:119-125 | A no-op without a stored recogniser. Otherwise it clears `isRecording` and nothing else. |
| `TranscriptionContext.TranscriptionProvider.ClearTranscript` | src/context/TranscriptionContext.tsx:127-131 | Sets `transcript` to `""` and `uploadedFileName` to none. `isRecording` and `isProcessingFile` are left unchanged. |
| `TranscriptionContext.TranscriptionProvider.SetSelectedLanguage` | src/context/TranscriptionContext.tsx:28 | Sets the selected language and nothing else. |
| `TranscriptionContext.TranscriptionProvider.HandleFileUpload` | src/context/TranscriptionContext.tsx:133-152 | A non-audio MIME type changes nothing. Otherwise the file name is recorded and processing is set. Without a recogniser, processing is cleared again and the name is kept. A file session starts exactly when both checks pass. |
| `TranscriptionContext.TranscriptionProvider.OnFileResult` | src/context/TranscriptionContext.tsx:169-176 | The loop appends `" " + text` for each final segment of the window, in index order, and changes no other field. |
| `TranscriptionContext.TranscriptionProvider.EndFileProcessing` | src/context/TranscriptionContext.tsx:178-220 | Each way a file transcription stops clears `isProcessingFile` and nothing else: recogniser error, end, playback rejected, start threw, or audio load error. |
| `WorkerProtocol.Task` | src/workers/transcription.worker.ts:66 | The task is never empty. It is the message's subtask when that is a non-empty string, and `"transcribe"` otherwise. |
| `WorkerProtocol.TranscribeOptions` | src/workers/transcription.worker.ts:65-70 | Transcription always uses 30 s chunks, a 5 s stride and timestamps, together with the message's task and language. |
| `WorkerProtocol.ErrorMessage` | src/workers/transcription.worker.ts:88 | The error payload's message is an `Error` object's `message`, and `String(value)` for any other thrown value. |
| `WorkerProtocol.InitiateEvent` | src/workers/transcription.worker.ts:17-24 | `initiate` names the message's model as its file and `"Model"` as its name, with `loaded` 0, `progress` 0 and `total` 100. |
| `WorkerProtocol.ProgressEvents` | src/workers/transcription.worker.ts:31-47 | The loader's notifications produce at most one event each. Every event is a progress event for the message's model. |
| `WorkerProtocol.OtherNotesSilent` | src/workers/transcription.worker.ts:32-46 | Notifications whose status is neither `"download"` nor `"init"` post nothing. |
| `WorkerProtocol.RelevantNotesPost` | src/workers/transcription.worker.ts:32-46 | When every notification is a `"download"` or an `"init"` one, each posts its own progress event, in order. |
| `WorkerProtocol.Relevant` | src/workers/transcription.worker.ts:32-46 | The notifications the callback reacts to. A notification is kept exactly when it occurs in the input and its status is `"download"` or `"init"`. |
| `WorkerProtocol.ProgressEventsRelevant` | src/workers/transcription.worker.ts:31-47 | For any mix of notifications, the progress events are those of the relevant notifications alone. There is exactly one event per relevant notification. |
| `WorkerProtocol.UpdateEvents` | src/workers/transcription.worker.ts:71-76 | Each partial result is posted as one `update`, in the order it was delivered. |
| `WorkerProtocol.LoadAttempt` | src/workers/transcription.worker.ts:15-62 | A filled slot loads nothing and posts nothing. A load that returns fills the slot. A load that throws leaves the slot empty. |
| `WorkerProtocol.TranscribeAttempt` | src/workers/transcription.worker.ts:65-83 | Transcription uses the pipeline in the slot and leaves the slot unchanged. It throws nothing exactly when the pipeline call returns, and then its last event is `complete` with the call's result. Otherwise it throws what the call threw. |
| `WorkerProtocol.Caught` | src/workers/transcription.worker.ts:84-90 | The `catch` block posts nothing when nothing was thrown. Otherwise it posts exactly one `error` event carrying the thrown value's message. |
| `WorkerProtocol.Handle` | src/workers/transcription.worker.ts:11-91 | After one message the slot is filled exactly when it was filled before or the load returned, and a filled slot keeps its pipeline. Every message posts at least one event. |
| `WorkerProtocol.Run` | src/workers/transcription.worker.ts:11-91 | A run of messages posts at least one event per message, and a filled slot is kept through the whole run. |
| `WorkerProtocol.HandleEndsWith` | src/workers/transcription.worker.ts:15-90 | A load that throws ends the output with its error. Otherwise the slot holds the found or loaded pipeline, and the output ends with `complete` carrying the call's result, or with the call's error. The output ends with `complete` exactly when neither the load nor the call threw. |
| `WorkerProtocol.HandleFollowsProtocol` | src/workers/transcription.worker.ts:11-91 | One message's output is accepted by the protocol automaton. The accepted language is `initiate progress* (error \| done ready update* terminal) \| update* terminal`, where `terminal` is `complete` or `error`. The output starts with `initiate` exactly when the slot was empty. |
| `WorkerProtocol.ProtocolOrdered` | src/workers/transcription.worker.ts:17-90 | In accepted output, phases never go back. `initiate`, `done` and `ready` each occur at most once and come before every `update` and the terminal event. The terminal event is the last one and the only one. `initialized` never occurs. |
| `WorkerProtocol.FailedLoadRetries` | src/workers/transcription.worker.ts:15-27 | A load that throws leaves the slot empty and ends with `error` carrying the thrown value's message, with no `done`, `ready` or `update`. The next message posts `initiate` again. |
| `WorkerProtocol.FilledSlotIgnoresModel` | src/workers/transcription.worker.ts:15 | With a filled slot, the output does not depend on the message's `model` or on the loader. The slot is unchanged, and only `update` and terminal events are posted. |
| `WorkerProtocol.FailedTranscriptionKeepsSlot` | src/workers/transcription.worker.ts:65-90 | A transcription that throws after a successful load keeps the pipeline in the slot and ends with `error`. The next message posts no `initiate`, `done` or `ready`. |
| `WorkerProtocol.FilledSlotIsStable` | src/workers/transcription.worker.ts:8-15 | Once filled, the slot keeps the same pipeline for any later run of messages, and no `ready` is posted again. |
| `WorkerProtocol.LoadedAtMostOnce` | src/workers/transcription.worker.ts:15-62 | Over any run of messages, `ready` is posted at most once. It is posted exactly once when the run starts with an empty slot and ends with a filled one. |
| `WorkerProtocol.InitializedOnce` | src/workers/transcription.worker.ts:93-94 | `initialized` occurs exactly once in the log of a worker that has handled any run of messages. |
| `TranscriptionWorker.InferenceWorker.constructor` | src/workers/transcription.worker.ts:8-94 | At module start the slot is empty and the log holds only `initialized`. |
| `TranscriptionWorker.InferenceWorker.Post` | src/workers/transcription.worker.ts:17-24 | `ctx.postMessage` appends the events to the log in the order posted and changes nothing else. |
| `TranscriptionWorker.InferenceWorker.EnsureLoaded` | src/workers/transcription.worker.ts:15-62 | Updates the slot and posts events as `LoadAttempt` describes, and returns what the loader threw. |
| `TranscriptionWorker.InferenceWorker.Transcribe` | src/workers/transcription.worker.ts:65-83 | Posts events as `TranscribeAttempt` describes and returns what the pipeline call threw. |
| `TranscriptionWorker.InferenceWorker.OnMessage` | src/workers/transcription.worker.ts:11-91 | The slot and the appended events are those of `Handle`. The appended events form one protocol word, and a filled slot is never replaced. |

## Left out

- Browser APIs are inputs or left out: `SpeechRecognition`, `getUserMedia`, `AudioContext`, the `Audio` element, `URL.createObjectURL`, toasts, console logging and the clipboard. Whether a recogniser exists and whether the microphone was granted are boolean inputs. Recogniser events are method calls.
- A recogniser result is modelled as its first alternative's text and its `isFinal` flag. The handlers read only `results[i][0]`.
- The `@huggingface/transformers` pipeline is an oracle. It returns the notifications or partial results it delivers, and then a value or a thrown value. Its numerics are not modelled.
- Progress percentages (`loaded/total*100`, `progress*100`) are floating point and are not modelled. A download progress event keeps `loaded` and `total`; an init progress event keeps only the file.
- The `multilingual` and `quantized` message fields are read by the worker but never used, so they are not part of `Message`.
- Async interleaving is not modelled. Each handler, including the promise chain of `startRecording` and the awaited library calls of the worker's `message` handler, runs to completion before the next event. A message arriving while a load is pending, and so a double load, is not covered.
- A message whose `data` is null or undefined makes the destructuring at the top of the `try` block throw, so only `error` is posted. This is not modelled: `Message` always carries its fields.
- React rendering is not modelled. A `setTranscript` updater is applied to the latest transcript in call order. The live `onend` uses the `isRecording` value captured when `startRecording` ran.
- The UI components (`ModelSelector`, `LanguageSelector`, `AudioWaveform`, `TranscriptionOutput`, `TranscriptionControls`, the index page), the `useWorker` hook and the static model list in `Constants.ts` are not part of this model.

## Findings

| source | as written | input that shows it | evidently intended | confidence | as-written member | corrected member |
|---|---|---|---|---|---|---|
| src/context/TranscriptionContext.tsx:96-102 | The live `onend` tests the `isRecording` captured when `startRecording` ran. The controls call `startRecording` only while that value is false, so `onend` never restarts the recogniser. | Start recording from the controls, let `onstart` run, then let the recogniser end on its own. | `onend` restarts the recogniser while the provider is still recording, as the comment beside it says. | not executed | `TranscriptionContext.StartFromControls` | `TranscriptionContext.StartFromControlsCurrent` |
