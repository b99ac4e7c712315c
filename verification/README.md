# Offline ASR service — a Dafny model of its core

This project models the logic of an offline speech-recognition service in
Dafny 4.11 and proves properties of it. The service has two parts. A
FastAPI server transcribes uploaded audio with Whisper or GigaAM. A
single-page browser client records and streams microphone audio, uploads
files, edits prompts and switches the inference device.

The model is functional throughout. It uses immutable datatypes and pure
transition functions. Anything the code cannot see becomes a parameter:
sockets, the DOM, the ML packages, the CUDA probe and the random file name.

| file | module | what it models |
|---|---|---|
| `base.dfy` | `Base` | `Option`, `Result`, `byte`, and the concatenation of a list of arrays |
| `text.dfy` | `Text` | ASCII lower-casing, prefix/suffix tests, first-occurrence replace, JavaScript `trim` and Python `strip`, decimal rendering |
| `js.dfy` | `Js` | JavaScript numbers (NaN, infinities, finite reals), `Math.floor`, `Math.round`, `%` |
| `wav.dfy` | `Wav` | `encodeWAV`: the 44-byte header, sample quantisation through `setInt16`, and a decoder for the round trip |
| `buffers.dfy` | `Buffers` | `mergeBuffers` |
| `stream.dfy` | `Stream` | the streaming controller: capture callback, `flushBuffers`, `stopStream`, `cleanupAudio`, `setChunkDuration`, socket events, and a log of what was sent |
| `rows.dfy` | `Rows` | `formatTime`, the text of a stream row, the inbound WebSocket message dispatch |
| `upload.dfy` | `Upload` | `handleSelection` |
| `prompts.dfy` | `Prompts` | the prompt editor: `setActivePrompt`, typing, "add", and the key chosen by `loadPrompts` |
| `settings.dfy` | `Settings` | the device drop-down and GPU toggle, applying loaded runtime settings, the path-status label |
| `shell.dfy` | `Shell` | `API_BASE`, `WS_BASE`, `navigateTo` |
| `py.dfy` | `Py` | Python values, truthiness, `or`, `dict.get`, `str`, exceptions |
| `device.dfy` | `Device` | `resolve_device` |
| `paths.dfy` | `Paths` | `os.path.splitext`, `os.path.join`, `ensure_dir`, writing a file, `save_upload_to_temp` |
| `gigaam.dfy` | `GigaAm` | `GigaAMEngine`: the `(model_id, device)` load cache and output normalisation |
| `whisper.dfy` | `Whisper` | `WhisperEngine`: the load cache, the `fp16` default, the segment projection |
| `service.dfy` | `Service` | the `/transcribe` endpoint |

Four behaviours of the code that a reader may not expect; the model keeps
them:

- **Adding a prompt.** The code refuses a name only when its current value is *truthy*. So an existing prompt whose value is `''` can be "added" again; it stays `''` and becomes active (`Prompts.AddExistingEmptyPasses`).
- **Applying loaded settings.** The GPU toggle is set from `data.device || 'cpu'` whether or not `gpu` is offered. If the server asks for `gpu` but does not offer it, the toggle shows checked (and disabled) while the drop-down holds no value. `Settings.LoadConsistentIff` states exactly when this happens.
- **A remote close while streaming.** The socket is no longer open, so audio still queued is not sent; the controller just stops (`Stream.RemoteCloseSendsNothing`).
- **A late close from an earlier socket.** Each start creates a new WebSocket, and every socket's close handler calls `stopStream(true)` on whatever `ws` holds by then. If the user stops and starts again before the first socket's close arrives, that close stops the new stream, or orphans it so that it never sends. The model keeps this behaviour; "## Findings" records it, and `Stream.ApplyGuarded` is the corrected controller.

## Model

| member | source | states |
|---|---|---|
| Shell.ApiBase | app/ui/static/script.js:1-2 | the API base is never empty: the configured one if non-empty, else the page origin if non-empty, else `http://127.0.0.1:8000` |
| Shell.WsBaseNonEmpty | app/ui/static/script.js:1-5 | whatever the page is configured with, the socket base is not empty |
| Shell.WsBaseSwapsScheme | app/ui/static/script.js:3-5 | an `https` base becomes `wss` plus the rest; any other `http` base becomes `ws` plus the rest; the result starts with `wss` iff the base starts with `https` |
| Shell.WsBaseDefault | app/ui/static/script.js:1-5 | the default base yields `ws://127.0.0.1:8000` |
| Shell.WsBaseWithoutHttp | app/ui/static/script.js:3-5 | a base that does not contain `http` is left unchanged |
| Shell.NavigateTo | app/ui/static/script.js:31-47 | after navigating to a link's `data-page` (`null` when it has none), exactly the links with that `data-page` are active; the old page's element is hidden and the new page's `${page}Page` element shown if it exists; the same page again changes nothing |
| Shell.NavigateToNull | app/ui/static/script.js:31-47 | a link without `data-page` highlights exactly the links without one and hides the current page, showing `nullPage` only if the document has it |
| Shell.NavigateKeepsValid | app/ui/static/script.js:39-47 | navigation keeps the link highlighting and the visible page in step with the current page; navigating to an existing page makes it the only visible one |
| Shell.NavigateIdempotent | app/ui/static/script.js:40 | navigating twice to the same page is the same as navigating once |
| Buffers.Merge | app/ui/static/script.js:587-595 | merging succeeds iff the requested length covers all queued samples; the result has that length, starts with the in-order concatenation, and is zero after it |
| Buffers.MergeExact | app/ui/static/script.js:587-595 | with the exact total, the merge is the concatenation |
| Buffers.MergeBuffers | app/ui/static/script.js:587-595 | the copying loop computes the same merge, including the failure when the total is too small |
| Wav.Le16RoundTrip | app/ui/static/script.js:614-615 | a 16-bit little-endian field reads back as the value modulo 2^16 |
| Wav.Le32RoundTrip | app/ui/static/script.js:610 | a 32-bit little-endian field reads back as the value modulo 2^32 |
| Wav.I16RoundTrip | app/ui/static/script.js:625 | a signed 16-bit field reads back as the value |
| Wav.ToInt16 | app/ui/static/script.js:625 | the `setInt16` conversion lands in [-32768, 32767] and is congruent to its input modulo 2^16 |
| Wav.Quantise | app/ui/static/script.js:624-625 | a sample is clamped to [-1, 1], scaled by 32768 when negative and 32767 otherwise, and truncated toward zero; the sign is kept and the result fits in 16 bits |
| Wav.QuantiseClamps | app/ui/static/script.js:624 | every sample at or above 1 encodes as 32767 and every sample at or below -1 as -32768 |
| Wav.QuantiseExamples | app/ui/static/script.js:624-625 | 1.5 encodes like 1.0, -2.0 like -1.0, 0.5 as 16383, -0.5 as -16384 |
| Wav.HeaderLayout | app/ui/static/script.js:609-621 | every header field sits at its offset with its value: RIFF, 36+2N, WAVE, `fmt `, 16, 1, 1, the rate, 2·rate, 2, 16, data, 2N |
| Wav.EncodeWav | app/ui/static/script.js:597-628 | the output is 44+2N bytes: the header for N samples, then the sample bytes |
| Wav.EncodeWavLayout | app/ui/static/script.js:597-626 | the whole buffer: its length, every header field, and sample i as a signed 16-bit value at offset 44+2i |
| Wav.DecodeEncode | app/ui/static/script.js:622-626 | reading the samples back out of an encoded buffer gives exactly the quantised samples, in order |
| Stream.ChunkTargetFacts | app/ui/static/script.js:83-85 | an accepted duration gives a target between 12000 and 240000 samples; 2000 ms gives 96000, 1000 ms 48000, 250 ms 12000 |
| Stream.Initial | app/ui/static/script.js:75-85 | the page starts idle with no socket, nothing queued or sent, and a target of 96000 samples |
| Stream.SetChunkDuration | app/ui/static/script.js:88-94 | NaN, infinities and values outside [250, 5000] change nothing; an accepted value sets the duration and a target within half a sample of 48·ms, and nothing else |
| Stream.CleanupAudio | app/ui/static/script.js:113-128 | the queue and its sample count are reset and nothing else changes |
| Stream.FlushValid | app/ui/static/script.js:130-137 | a flush with queued audio while `ws` is open sends one WAV of the concatenated queue and empties it; otherwise nothing happens |
| Stream.CaptureCallback | app/ui/static/script.js:173-181 | a frame is ignored when not streaming; reaching the target while `ws` is open sends one WAV of everything queued plus the frame and resets the queue; otherwise the frame is queued and nothing is sent; the flag and the sockets never change |
| Stream.StopFlushesThenFinalizes | app/ui/static/script.js:217-236 | unless it is the silent call while idle, stopping sends the remaining audio and then the finalize message, each only while `ws` is open, and closes the socket `ws` refers to; either way the controller ends idle with `ws` null |
| Stream.SocketOpenMarks | app/ui/static/script.js:166-167 | only a connecting socket opens; its handler then waits for the microphone and nothing else changes |
| Stream.MicAnswerOutcome | app/ui/static/script.js:167-189 | once the microphone answers, success starts streaming and changes nothing else; failure leaves the controller idle with `ws` null |
| Stream.SocketCloseOutcome | app/ui/static/script.js:212-234 | a close marks its socket closed; if `ws` is another socket that is open while streaming, the queue and the finalize message go out over it and it is closed, otherwise nothing is sent; the controller ends idle with `ws` null |
| Stream.RemoteCloseSendsNothing | app/ui/static/script.js:212-222 | a close of the socket `ws` refers to, or of any socket once `ws` is null, sends nothing and leaves the controller idle with an empty queue |
| Stream.StartStreamFrame | app/ui/static/script.js:159-164 | starting is a no-op while streaming; otherwise it appends exactly one connecting socket that `ws` refers to and leaves earlier sockets, the queue, the settings, the pending microphone requests and the sent log unchanged |
| Stream.ToggleKeepsValid | app/ui/static/script.js:238-244 | a click stops a running stream or starts a new one, keeps Valid and only appends to the sent log; a start points `ws` at the new socket |
| Stream.ApplyKeepsValid | app/ui/static/script.js:159-244 | every event keeps the sample count equal to the queued samples, the target matched to the duration and the socket indices in range, and only appends to the sent log |
| Stream.RunKeepsValid | app/ui/static/script.js:159-244 | the same for any sequence of events |
| Stream.CaptureStep | app/ui/static/script.js:173-181 | while streaming with `ws` open, one frame moves its samples into the sent-or-queued audio with nothing lost or reordered |
| Stream.CaptureLosesNothing | app/ui/static/script.js:173-181 | for any run of frames, the audio sent plus the audio still queued is the earlier audio followed by all the frames' samples |
| Stream.StopSendsRemainder | app/ui/static/script.js:223-229 | stopping sends exactly the queued samples and ends the log with the finalize message |
| Stream.RestartReaches | app/ui/static/script.js:159-244 | start, stop and start again leave the first socket closing, one finalize message sent, and `ws` on the second, connecting socket |
| Stream.StaleCloseOrphansStream | app/ui/static/script.js:212-221 | when the first socket's close arrives while the second connects, the controller later streams with `ws` null, and a full chunk is queued but never sent |
| Stream.StaleCloseStopsNewStream | app/ui/static/script.js:212-234 | when the first socket's close arrives while the second streams, the second stream is stopped, finalized and closed without the user pressing stop |
| Stream.ServerClosingHoldsAudio | app/ui/static/script.js:130-137 | once the server starts closing the socket a stream runs on, the stream goes on but a frame that reaches the target stays queued and nothing is sent |
| Stream.GuardedKeepsLive | app/ui/static/script.js:159-244 | with handlers that act only for the socket `ws` refers to, every event (a server-initiated closing included) keeps the controller streaming only while `ws` refers to a socket that is open or closing, and never to a closed one |
| Stream.RunGuardedKeepsLive | app/ui/static/script.js:159-244 | the same for any sequence of events |
| Stream.GuardedStreamingSends | app/ui/static/script.js:173-234 | in every state the guarded controller reaches, a running stream is attached to its own socket: while it is open a frame that reaches the target sends the whole queue with the frame, and once it is closing its `close` event ends the stream |
| Stream.GuardedStaleCloseKeepsStream | app/ui/static/script.js:212-214 | in the guarded controller the close of a superseded socket leaves the current stream, its queue and its log alone |
| Rows.MinutesAndSeconds | app/ui/static/script.js:632-637 | for non-negative times the two floors are the whole minutes and the seconds within the minute |
| Rows.FormatTimeReadsBack | app/ui/static/script.js:630-639 | below 100 minutes the text is `mm:ss` with two digits on each side, which read back as the minutes and the seconds |
| Rows.FormatTimeEmptyOnlyForNaN | app/ui/static/script.js:630-631 | the text is empty iff the number is NaN |
| Rows.RowText | app/ui/static/script.js:641-652 | a row's text is empty exactly when it has no range and its content is a truthy value that renders as nothing, such as an empty array; string content or no content gives a non-empty row |
| Rows.RowTextShape | app/ui/static/script.js:645-649 | a row has a `[start – end] ` prefix iff both times are numbers other than NaN, and ends with the rendered text if truthy, else the rendered summary if truthy, else `(пусто)` |
| Rows.Dispatch | app/ui/static/script.js:194-210 | a message is ignored iff it is unparseable or its event is not one of the four kinds |
| Rows.DispatchKinds | app/ui/static/script.js:194-210 | partial rows show the payload with its range; summary rows only the rendered summary; errors their rendered detail or the default notice; info rows the rendered message; fields of any JSON type are rendered when truthy |
| Upload.HandleSelection | app/ui/static/script.js:293-306 | an empty list changes nothing; only the first file counts; an accepted file becomes the selection; a rejected one leaves the selection as it was |
| Upload.AcceptedIff | app/ui/static/script.js:6-7 | a file is accepted iff its last four characters, lower-cased, are `.wav`, `.mp3` or `.ogg`, or its MIME type is one of the five listed |
| Upload.RejectedExample | app/ui/static/script.js:293-302 | `clip.flac` typed `audio/flac` is rejected and the previous selection stays |
| Upload.AcceptedExample | app/ui/static/script.js:293-303 | `clip.WAV` with no MIME type is accepted by its extension |
| Prompts.Put | app/ui/static/script.js:384 | storing a value updates exactly that key, keeps an existing key's insertion place, inserts a new key last, and keeps the key list duplicate-free |
| Prompts.FirstKey | app/ui/static/script.js:394-395 | the first key `Object.keys` lists is the array-index key of least value if there is one, else the first key inserted |
| Prompts.IndexKeysEnumerateFirst | app/ui/static/script.js:394-395 | after adding `b`, `a` and `2`, the first key listed is `2` |
| Prompts.ArrayBodyLoads | app/ui/static/script.js:392-396 | an array body passes the object test, and its index `0` becomes the active prompt |
| Prompts.SetActivePrompt | app/ui/static/script.js:367-380 | a non-empty key that exists becomes active with its stringified value shown and the input enabled; any other key clears and disables the input |
| Prompts.OnInput | app/ui/static/script.js:382-386 | typing stores the text under the active key only; every other entry is unchanged; with no active key the map is unchanged |
| Prompts.AddPromptContract | app/ui/static/script.js:424-437 | the name is trimmed; an empty name, or a name whose value is truthy, is refused with nothing changed; otherwise the name maps to `''`, becomes active, the name field is cleared, and every other entry is unchanged |
| Prompts.AddExistingEmptyPasses | app/ui/static/script.js:430-436 | an existing name whose value is `''` is not refused |
| Prompts.LoadSelection | app/ui/static/script.js:392-396 | a loaded map replaces the old one; the active key stays if it is still present, else the first key `Object.keys` lists becomes active, else none |
| Prompts.LoadFailures | app/ui/static/script.js:393-400 | a failed request changes nothing; a body that is neither an object nor an array loads an empty map with nothing active |
| Prompts.OperationsKeepValid | app/ui/static/script.js:367-437 | every editor operation keeps the key list duplicate-free and matching the map, and keeps the active key present |
| Settings.SelectValue | app/ui/static/script.js:486 | assigning a value to the drop-down selects it if it is an option, else leaves the drop-down empty |
| Settings.OnDeviceChange | app/ui/static/script.js:562-566 | after picking a device, the toggle is on iff the device is `gpu` |
| Settings.OnToggle | app/ui/static/script.js:568-581 | toggling off selects `cpu`; toggling on selects `gpu` when offered; otherwise the toggle reverts, the device stays, and the user is notified |
| Settings.RequestedDevice | app/ui/static/script.js:486 | the requested device is never empty |
| Settings.ApplyRuntimeSettings | app/ui/static/script.js:477-505 | the options default to `["cpu"]`; the requested device is selected if offered; the toggle shows whether `gpu` was requested and is disabled iff `gpu` is not offered |
| Settings.HandlersKeepConsistent | app/ui/static/script.js:562-581 | both handlers leave the toggle on iff the device is `gpu` |
| Settings.LoadConsistentIff | app/ui/static/script.js:486-505 | after loading, toggle and device agree iff the server did not request an unavailable `gpu`; in that case the toggle is on and disabled while the drop-down is empty |
| Settings.LoadDefaults | app/ui/static/script.js:477-505 | an empty settings object gives options `["cpu"]`, device `cpu`, toggle off and disabled |
| Settings.ToggleOffWithoutCpu | app/ui/static/script.js:570-572 | toggling off when `cpu` is not offered leaves the drop-down empty |
| Settings.PathLabelReadsBack | app/ui/static/script.js:460-464 | the label says the path exists iff it does and says writable iff it exists and is writable; a missing path hides its writable flag |
| Text.Trim | app/main.py:59 | the stripped text is the slice of the input between its outer whitespace runs, and neither starts nor ends with whitespace |
| Text.TrimIdempotent | app/ui/static/script.js:425 | stripping twice is stripping once |
| Device.ResolveDevice | app/device.py:1-12 | the result is `cpu` or `cuda`; a lower-cased `cpu` or `cuda` is returned as given; anything else, `auto` and empty included, is `cuda` iff the probe reports CUDA, and `cpu` when the probe fails |
| Device.ResolveIdempotent | app/device.py:1-4 | resolving a resolved device returns it unchanged, whatever the probe |
| Device.ResolveExamples | app/device.py:2-12 | `CPU` gives `cpu`, `Cuda` gives `cuda`, `auto` follows the probe, `gpu` without CUDA gives `cpu`, a failing probe gives `cpu`, a missing device is `auto` |
| Paths.Splitext | app/utils.py:10 | the root and the extension put together give back the path |
| Paths.SplitextShape | app/utils.py:10 | a non-empty extension starts with its only dot and contains no `/`; the root's last component is not all dots |
| Paths.SplitextNoExtension | app/utils.py:10 | the extension is empty iff there is no dot in the last component or only leading dots come before it |
| Paths.SplitextLoop | app/utils.py:10 | the backwards scan computes the same split |
| Paths.SplitextExamples | app/utils.py:10 | `archive.tar.gz` gives `.gz`, `.bashrc` gives no extension, `file.` gives `.` |
| Paths.SplitextDirectoryExamples | app/utils.py:10 | dots in directory names do not count; a leading dot in the last component does not either |
| Paths.Join | app/utils.py:11 | joining with an absolute name gives the name; otherwise the result ends with the name |
| Paths.EnsureDir | app/utils.py:5-6 | creating an existing directory changes nothing; a file of that name raises FileExistsError |
| Paths.WriteFile | app/utils.py:12-13 | a path with a NUL raises ValueError; one with a component over 255 bytes raises OSError and a directory raises IsADirectoryError, each message naming the path as `repr` writes it; otherwise the file holds exactly the bytes |
| Py.Repr | app/utils.py:12-13 | `repr` of the path in an `open` error starts and ends with the chosen quote, `"` exactly when the path holds `'` and no `"` |
| Py.ReprRoundTrip | app/utils.py:12-13 | reading back the text between the quotes gives the path, whatever characters it holds |
| Py.ReprPlain | app/utils.py:12-13 | a path without quotes, backslashes or control characters is shown between single quotes unchanged |
| Py.ReprExamples | app/utils.py:12-13 | `a'b` is shown in double quotes and a newline as `\n` |
| Paths.UploadExt | app/utils.py:10 | the stored extension always starts with a dot |
| Paths.UploadExtKeepsSuffix | app/utils.py:10 | a file with an extension keeps it as the suffix of its name; one without gets `.bin` |
| Paths.SaveUploadSteps | app/utils.py:8-14 | saving creates the directory, then writes the bytes under the joined path and returns it |
| Paths.SaveUploadContract | app/utils.py:8-14 | saving succeeds when the stored path is openable and not a directory, and fails with ValueError or OSError when it is not openable; the returned path is the directory, a slash, the 32 hex digits and the extension; the directory exists afterwards, the file holds exactly the bytes, and every other file is unchanged |
| Paths.LongExtensionRefused | app/utils.py:10-12 | an upload whose kept extension takes more than 223 bytes gets a stored name too long for the file system, so saving fails with OSError and no file is written |
| Paths.StoredPathBasename | app/utils.py:11 | the returned path lies directly in the directory: its last component is the stored name |
| Paths.SaveUploadFailures | app/utils.py:8-10 | a file in place of the directory raises FileExistsError before anything changes; a missing filename raises TypeError after the directory was created |
| GigaAm.Load | app/asr/gigaam_engine.py:16-40 | a matching key with a model is a hit that returns the engine unchanged; a successful load caches the requested key |
| GigaAm.LoadOutcomes | app/asr/gigaam_engine.py:25-40 | on a miss: an SDK failure is passed on; a model with `to` is moved and marked `torch-like`, a failed move is a RuntimeError naming the device; a model without `to` is kept and marked `unknown-no-to` |
| GigaAm.LoadIdempotent | app/asr/gigaam_engine.py:16-23 | loading the same key again changes nothing and does not consult the SDK |
| GigaAm.KeyChangeReloads | app/asr/gigaam_engine.py:17-27 | any other key goes to the SDK |
| GigaAm.Normalise | app/asr/gigaam_engine.py:56-65 | every result's `meta` is exactly the current SDK variant |
| GigaAm.NormaliseOutputs | app/asr/gigaam_engine.py:57-65 | a string gives its stripped self, the caller's language and no segments; a dictionary gives `text`, else `result`, else `""`, stringified and stripped, its own language if truthy, else the caller's, and its segments; any other output gives `str(out)` stripped, the caller's language and no segments |
| GigaAm.NormalisedTextStripped | app/asr/gigaam_engine.py:58-65 | every returned text is already stripped |
| GigaAm.Transcribe | app/asr/gigaam_engine.py:42-54 | with no model loaded it raises RuntimeError; every result carries the variant as `meta` |
| GigaAm.TranscribeInterface | app/asr/gigaam_engine.py:47-54 | `transcribe()` is used when present, else a call when callable; a model with neither is refused |
| Whisper.Load | app/asr/whisper_engine.py:15-27 | a matching key with a model is a hit; a successful load caches the requested key |
| Whisper.LoadOutcomes | app/asr/whisper_engine.py:24-27 | on a miss the SDK is asked for the key and its model is cached; an SDK failure is passed on |
| Whisper.LoadIdempotent | app/asr/whisper_engine.py:15-23 | loading the same key again changes nothing and does not consult the SDK |
| Whisper.Fp16 | app/asr/whisper_engine.py:34-36 | `fp16` is true when absent or None and forwarded unchanged otherwise |
| Whisper.Fp16Default | app/asr/whisper_engine.py:33-43 | a call without `fp16` and one with `fp16=None` are the same; `fp16=False` is forwarded |
| Whisper.ProjectSegments | app/asr/whisper_engine.py:46-58 | projection succeeds iff every segment is a dictionary, keeps count and order, projects element-wise, and otherwise fails at the first non-dictionary |
| Whisper.ProjectedSegmentKeys | app/asr/whisper_engine.py:48-56 | a projected segment has exactly the six keys, each with the segment's value or None |
| Whisper.NormaliseContract | app/asr/whisper_engine.py:45-67 | a list of segments is projected element-wise, anything else passes through; the text is the stripped `text` or `""`; `meta` holds only `task` |
| Whisper.NormaliseFaults | app/asr/whisper_engine.py:46-61 | a segment that is not a dictionary, or a truthy text that is not a string, raises AttributeError |
| Whisper.Transcribe | app/asr/whisper_engine.py:29-43 | with no model loaded it raises RuntimeError; otherwise the model runs with the language and the `fp16` default and its result is normalised |
| Service.FormField | app/main.py:54-57 | a form field that is missing or empty takes its declared default; any other value is passed as given |
| Service.Arguments | app/main.py:54-57 | the handler always receives a non-empty engine and device, and never an empty model or language; the file is passed unchanged |
| Service.FormDefaults | app/main.py:54-57 | a request with only the file (or empty fields) runs whisper with `base` on device `auto` |
| Service.ChooseModel | app/main.py:65-66 | a model the handler receives is kept; with none it is `base` for whisper and `v3_e2e_rnnt` for gigaam |
| Service.Wrap | app/main.py:93-95 | any other exception becomes a 500 whose detail is `Transcription failed: <type>: <message>` |
| Service.RunEngine | app/main.py:72-75 | running an engine touches only that engine's cache and never the files |
| Service.EngineNameExamples | app/main.py:59 | ` WHISPER\n` is the whisper engine |
| Service.MissingEngineName | app/main.py:54-60 | a request without an engine name, or with an empty one, is handled exactly as one naming whisper |
| Service.BlankEngineRejected | app/main.py:54-61 | a name of blanks is not replaced by the default: it strips to `""` and is refused with a 400 |
| Service.NormaliseEngineIdempotent | app/main.py:59 | normalising a normalised name changes nothing |
| Service.UnknownEngineRejected | app/main.py:59-61 | an unknown name is a 400 naming it, before the device is resolved or the file stored; nothing changes |
| Service.ResponseEchoes | app/main.py:63-90 | a response echoes the normalised engine, the chosen model and the resolved device, the response model accepted it, and that engine now caches that model on that device |
| Service.ErrorsAre400Or500 | app/main.py:60-95 | an unknown engine is the 400; for a known engine the request fails iff storing the upload, the engine or the response model raises, and the failure is the 500 wrapping the first such fault |
| Service.DefaultModels | app/config.py:8-11 | without a model, or with an empty one, whisper runs `base` and gigaam `v3_e2e_rnnt` |
| Service.CachedRequestKeepsCaches | app/main.py:72-73 | a request whose engine already holds the chosen model on the resolved device leaves both engine caches as they were, whatever else fails |
| Service.RepeatHitsCache | app/main.py:72-73 | repeating a successful request finds its model loaded: the engine caches stay as they were |

## Findings

| source | as written | input that shows it | evidently intended | confidence | as-written member | corrected member |
|---|---|---|---|---|---|---|
| app/ui/static/script.js:212-221 | every socket's close handler runs `stopStream(true)`, which nulls whatever `ws` holds by then | start, stop, start again; the first socket's close arrives while the second connects (`Stream.OrphanEvents`) | a superseded socket's close leaves the new stream attached to its own socket, so it sends its audio while that socket is open | medium, not executed | Stream.StaleCloseOrphansStream | Stream.GuardedStreamingSends |
| app/ui/static/script.js:212-234 | the same handler stops a stream that runs on a newer socket | start, stop, start again; the first socket's close arrives once the second streams (`Stream.InterruptEvents`) | only the current socket's close stops the stream | medium, not executed | Stream.StaleCloseStopsNewStream | Stream.GuardedStaleCloseKeepsStream |

The corrected controller, `Stream.ApplyGuarded`, runs the microphone answer and the close handler only for the socket `ws` still refers to. It shares every other handler with the code as written, so the properties of those handlers hold for both.

## Left out

- Rendering, CSS classes, notifications and their timers, and event-listener wiring. Only the state and texts they show are modelled.
- `fetch`, `getUserMedia` and the audio graph. A WebSocket is its creation index and ready state. The server may start closing an open socket (`SocketClosing`) before its `close` event; a connection that fails goes straight to the `close` event. Sending appends to one log for all sockets, since every send goes to `ws`. Microphone access and building the audio graph are one success flag.
- Every `onopen` builds a new audio graph, and a graph that `cleanupAudio` no longer references keeps running. Frames from any graph reach the same handler, so the model takes any sequence of frame events and does not count graphs.
- Asynchronous interleavings other than the stream's socket and microphone events: the race between `syncChunkSettings` and the settings-loaded event, and awaits in the upload, prompt and settings saves. The payload built by the settings save button is not modelled.
- Paths: `os.path` is modelled as POSIX `posixpath`. On Windows, `ntpath` also treats `\` as a separator and a drive letter as a root in `splitext` and `join`, and that is not modelled.
- Keys inherited by every JavaScript object, such as `toString`, are not modelled: the prompt map holds only its own keys, so `key in prompts` and `prompts[key]` look only at those.
- Prompts.AddPrompt: an array prompt body keeps its `length` property. `Object.keys` does not list it, but `key in prompts` and `prompts[key]` see it. The model treats `length` as absent, so adding it succeeds and `Prompts.SetActivePrompt` with it disables the input. The page refuses to add `length` to a non-empty array. On an empty array it selects `length`, which the list never shows.
- The upload page's `uploadSelected` request, the prompt "save" button and the model drop-down: each is a request and a rendering, with no state beyond what is modelled.
- Stream.GuardedStreamingSends: even the corrected controller sends nothing between the server starting to close the socket and that socket's `close` event; frames that arrive then stay queued and are dropped when the stream stops (`Stream.ServerClosingHoldsAudio`).
- Py.Repr: characters outside ASCII are kept as they are. Python escapes those it does not count as printable, such as U+00A0, which needs the Unicode database.
- Stream.SetChunkDuration: the coercion of non-numbers with `Number(value)` is not modelled. The argument is already a JavaScript number; only numbers reach it in the code.
- Chunk durations are exact reals. The browser computes `48000 * ms / 1000` in doubles, which may round differently at a half-sample boundary. NaN samples are not modelled.
- FormatTime: from 10^21 minutes (6·10^22 seconds) on, JavaScript writes the minutes in exponent notation, such as `1e+21`. The model writes all the digits.
- Rows.Field: `String(value)` of a non-string JSON value is given with the field, not computed. Examples are `5` for a number, `[object Object]` for an object, and `""` for an empty array.
- Paths.WriteFile: a NUL and an over-long name component are the only refusals of `open` modelled. A path over 4096 bytes, missing permissions and a full disk are not.
- Lower-casing is ASCII only. For every decision it takes part in (file extensions, engine and device names), no other character lower-cases into the letters involved.
- Py.Str: `str()` of floats, lists, dictionaries and other objects is a parameter (`render`). Strings, None, booleans and integers are rendered exactly.
- Python dictionaries are maps, so their key order is not modelled. A value other than the listed Python types is an object with a type name and a truthiness, and is taken to have no `.strip`.
- `mkdir(parents=True)` creating missing parent directories is not modelled: the directory is a single name.
- `UploadFile.read`, logging, `perf_counter` and the `duration_seconds` field are left out.
- Which bodies the response model (`TranscribeResponse` in `app/schemas.py`) accepts is a parameter (`validate`), since it depends on the pydantic version. What happens when it refuses one is modelled: the exception it raises becomes a 500 like any other.
- Form parsing belongs to FastAPI. The model takes its documented rule for optional form fields: a missing field and an empty string both become the declared default. A field that is present but not text is not modelled.
- Service.Handle: the `out.get("text", "")` and `out.get("meta", {})` fallbacks are not modelled separately. Both engines always return all four keys, so the defaults never apply.
- Service.Handle: the re-raise of an `HTTPException` inside the `try` is not modelled. Nothing called there raises one.
- The engines' locks and double-checked locking: `load` is sequential.
- `uuid.uuid4().hex` is a parameter: any 32 lower-case hexadecimal digits.
- `whisper.load_model`, `gigaam.load_model`, moving a model and running it are SDK parameters. Importing a missing package is one of the faults they may return.
- The CUDA probe is a parameter: true, false, or a fault from importing torch.
- `app/schemas.py` and `app/asr/base.py` hold only declarations. The defaults of `app/config.py` are constants.
