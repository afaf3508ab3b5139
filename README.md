# Voice assistant for the visually impaired: verified model of the control logic

The assistant watches a camera and listens to its user. It runs in one of two modes.

- **On-demand mode (the default).** Each heard utterance is first treated as a control command. Then, depending on the settings that command leaves:
  - it is answered from the object tracker ("what is on my left?"), or
  - it is passed to a Gemini generative model when it carries the wake word "gemini".
- **Continuous mode.** The loop keeps announcing where the recognised objects are, as long as object recognition is on.

Answers are spoken in chunks of at most twelve words. A background listener can cut the answer short when it hears "stop", "cancel" and similar words.

This project models that deterministic core in Dafny and proves what it promises:

- `Config` (config.dfy) holds the three settings — mode, recognition on/off, Gemini on/off — as a `FeatureState` object, together with their setters.
- `SpeechProcessing` (speech_processing.dfy) covers:
  - `chunk_text`, as the loop `ChunkText`, specified by the function `ChunksOf`;
  - the cancellable speak loop (`SpeakWithInterruption` / `SpeakChunks`), with the stop flag as an oracle `isSet(k)` that gives the flag's value when `k` chunks have been spoken;
  - the listener's interrupt test;
  - the first-match command dispatcher `ProcessVoiceCommand`.
- `ObjectRecognition` (object_recognition.dfy) covers:
  - the `ObjectTracker` with its five-frame buffer and merged dictionary;
  - the left/middle/right partition;
  - the announcement string;
  - the keyword-driven location query.
- `GeminiAi` (gemini_ai.dfy) covers the wake-word test, the query cleaning and the return logic of `query_gemini`. The model call goes through a `GenerativeModel` object whose `generate` function is a parameter; the object records every prompt it receives.
- `MainLoop` (main.dfy) covers:
  - one on-demand round;
  - one continuous-mode pass;
  - the dispatch between them (`Round`).

  Each is specified by a pure outcome function (`OnDemandOutcome`, `ContinuousSpoken`, `RoundOutcome`). The outcome gives the settings after the round, the utterances spoken and the prompts sent to the model.

Shared support modules:

- `Voice` is the text-to-speech engine, modelled as an append-only log of utterances.
- `PyStr` provides Python string operations over ASCII: `in`, `lower`, `split`, `join`, `strip`, `replace(w, "")`.
- `PyDict` provides insertion-ordered Python dicts as association lists, with `d[k] = v` and `d.update(e)` proved to mean map override.
- `Wrappers` provides `Option`.

Python dictionaries are association lists in key-insertion order. The order of the spoken object lists depends on that order, so a plain `map` would lose information.

Some source functions are split into several Dafny members so that each proof stays small:

- `process_voice_command` is `ProcessVoiceCommand` plus the per-branch `Perform`.
- `speak_with_interruption` is `SpeakWithInterruption` plus the chunk loop `SpeakChunks`.
- `update_objects` puts its rebuild loop in `MergeFrames`.
- `query_gemini` is `QueryGemini` plus `CleanQuery`, `ComputePrompt` and `AskModel`.
- The routing of main.py:81-92 is `RouteQuery` plus its two branches, `ObjectsThenGemini` and `GeminiOnly`.

## Model

| member | source | states |
|---|---|---|
| Config.WithMode | config.py:7-10 | switching the mode sets exactly the mode and keeps both toggles |
| Config.WithRecognition | config.py:14-17 | toggling recognition sets exactly that flag and keeps the mode and the Gemini flag |
| Config.WithGemini | config.py:20-23 | toggling Gemini sets exactly that flag and keeps the mode and the recognition flag |
| Config.SettersIdempotent | config.py:7-23 | each setter applied twice with the same argument equals applying it once; setting a field to its current value changes nothing |
| Config.FeatureState.constructor | config.py:3-5 | the initial state is on-demand mode with recognition and Gemini both enabled |
| Config.FeatureState.SwitchMode | config.py:7-11 | the global mode becomes the argument; both toggles are unchanged |
| Config.FeatureState.ToggleRecognition | config.py:14-18 | recognition becomes the argument; the mode and the Gemini flag are unchanged |
| Config.FeatureState.ToggleGemini | config.py:20-24 | Gemini becomes the argument; the mode and the recognition flag are unchanged |
| Voice.Speaker.constructor | speech_processing.py:18-20 | a fresh engine has said nothing |
| Voice.Speaker.Say | speech_processing.py:98-99 | saying an utterance appends exactly that utterance to what was said |
| PyStr.Lower | gemini_ai.py:22 | lower-casing keeps the length, maps each character to its lower-case form and leaves no upper-case letter |
| PyStr.Strip | gemini_ai.py:31 | the result has no leading or trailing whitespace, is no longer than the input, is empty iff the input is blank, and leaves an already stripped string unchanged |
| PyStr.Split | speech_processing.py:51 | `split()` yields whitespace-free, non-empty tokens |
| PyStr.SplitJoin | speech_processing.py:54 | splitting a space-joined list of tokens gives the list back |
| PyStr.RemoveAll | gemini_ai.py:31 | `replace(w, "")` never lengthens the text and leaves a text without `w` unchanged |
| PyDict.SetKeys | object_recognition.py:46 | assigning a present key keeps the key order; a new key goes last |
| PyDict.UpdateUnique | object_recognition.py:46 | `dict.update` keeps the keys unique |
| PyDict.UpdateToMap | object_recognition.py:46 | `d.update(e)` denotes the map of `d` overridden by the map of `e` |
| SpeechProcessing.ChunkText | speech_processing.py:47-58 | the greedy chunking loop returns exactly `ChunksOf(text)` |
| SpeechProcessing.ChunksOfSpec | speech_processing.py:47-58 | the words of all chunks, in order, are exactly `text.split()`; every chunk has 1 to 12 words, every chunk but the last has 12 words or ends in a word ending in `.`, `!` or `?`, and no sentence end occurs earlier inside a chunk; there are no chunks iff the text is blank |
| SpeechProcessing.GroupsRoundTrip | speech_processing.py:50-57 | flattening the word groups gives back the words, and re-splitting the joined chunks gives back the groups |
| SpeechProcessing.GroupsUnique | speech_processing.py:50-57 | every grouping of the chunk shape is the one the packing loop produces from its words (the shape determines the chunking) |
| SpeechProcessing.PackFlatten | speech_processing.py:50-57 | the packing loop loses, adds and reorders no word |
| SpeechProcessing.PackShape | speech_processing.py:53-57 | the packing loop yields only groups of the chunk shape |
| SpeechProcessing.PackClosedGroup | speech_processing.py:53-55 | a group that reaches 12 words or a sentence end is flushed and packing restarts empty |
| SpeechProcessing.PackFinalGroup | speech_processing.py:56-57 | a non-empty unfinished chunk at the end of the text is still emitted |
| SpeechProcessing.GroupsEmpty | speech_processing.py:50-57 | there are no groups iff there are no words |
| SpeechProcessing.SplitEachJoinEach | speech_processing.py:54 | joining token groups with spaces and splitting them again is the identity |
| SpeechProcessing.StopPoint | speech_processing.py:95-97 | the loop breaks at the first check that sees the flag set, or runs through every chunk |
| SpeechProcessing.SpeakWithInterruption | speech_processing.py:61-105 | what is said is exactly `Spoken(ChunksOf(text), isSet)` |
| SpeechProcessing.SpeakChunks | speech_processing.py:94-105 | the loop says the chunks before the stop point, then the acknowledgement iff the flag is then set |
| SpeechProcessing.StopPointAt | speech_processing.py:95-97 | the stop point is characterised uniquely: no earlier check saw the flag, and the flag is set there unless every chunk was spoken |
| SpeechProcessing.SpokenShape | speech_processing.py:95-105 | what is said is a prefix of the chunks in order, followed by "okk i will stop" exactly once when the flag is set after the loop and not otherwise; every chunk said was preceded by a check that found the flag clear |
| SpeechProcessing.StoppedBeforeFirstChunk | speech_processing.py:95-105 | with the flag set before the first check, no chunk is said, only the acknowledgement |
| SpeechProcessing.NeverStopped | speech_processing.py:95-105 | with the flag never set, exactly the chunks are said and no acknowledgement |
| SpeechProcessing.InterruptIff | speech_processing.py:75 | the interrupt test holds iff the text contains "stop response", "cancel", "shut up" or "stop" |
| SpeechProcessing.InterruptThreeKeywords | speech_processing.py:75 | "stop response" is redundant: the test holds iff the text contains "stop", "cancel" or "shut up" |
| SpeechProcessing.FirstTriggerSpec | speech_processing.py:188-211 | first-match dispatch: no command iff no trigger occurs; otherwise the command of the first trigger that occurs |
| SpeechProcessing.ParseCommandChain | speech_processing.py:188-211 | the command is chosen by the elif chain, in its order of trigger phrases |
| SpeechProcessing.ProcessVoiceCommand | speech_processing.py:186-211 | the settings become `CommandSettings(old, command)` and at most the one acknowledgement `CommandReply(command)` is said |
| SpeechProcessing.Perform | speech_processing.py:188-211 | one branch: its setter and its fixed acknowledgement, nothing else |
| SpeechProcessing.SwitchPrecedence | speech_processing.py:188-195 | "switch to back" wins over "switch to next", sets on-demand mode and says "i will got to on demand mode"; otherwise "switch to next" sets continuous mode and says "now you are in continuous mode"; the toggles are kept |
| SpeechProcessing.TogglesKeepMode | speech_processing.py:196-211 | only a switch phrase changes the mode, and each toggle command sets only its own flag, to on for "start" and off for "stop" |
| SpeechProcessing.NoTriggerNoEffect | speech_processing.py:186-211 | no command is recognised iff none of the six triggers occurs, and then the state is unchanged and nothing is said |
| SpeechProcessing.SwitchToNextScenario | speech_processing.py:192-195 | "switch to next" heard in on-demand mode gives continuous mode and the single reply "now you are in continuous mode" |
| ObjectRecognition.Recent | object_recognition.py:38 | a `deque(maxlen=n)` keeps the last min(length, n) elements in arrival order |
| ObjectRecognition.RecentAppend | object_recognition.py:42 | appending to a full buffer equals keeping the last n of the whole history |
| ObjectRecognition.MergeSpec | object_recognition.py:44-46 | the merged dictionary has unique keys and denotes the left fold of the buffer, later snapshots overriding earlier ones |
| ObjectRecognition.OverlayLabels | object_recognition.py:44-46 | a label is merged iff some buffered snapshot contains it |
| ObjectRecognition.OverlayNewest | object_recognition.py:44-46 | a merged label carries the detection from the newest snapshot that contains it |
| ObjectRecognition.MergeLabels | object_recognition.py:44-46 | a label is in the merged dictionary iff some buffered snapshot contains it, so a label seen only in an evicted snapshot is gone |
| ObjectRecognition.MergeFrames | object_recognition.py:44-46 | the rebuild loop (reset to `{}`, then `update` by every buffered snapshot in order) computes `Merge(buffer)` |
| ObjectRecognition.MergeStep | object_recognition.py:45-46 | one more iteration of the rebuild loop is one more `update` |
| ObjectRecognition.ObjectTracker.constructor | object_recognition.py:35-38 | a new tracker has the given capacity, an empty buffer and no recognised objects |
| ObjectRecognition.ObjectTracker.UpdateObjects | object_recognition.py:40-46 | the snapshot joins the history; the buffer is the last `maxFrames` snapshots; the recognised objects are rebuilt from the buffer; the tracker invariant is kept |
| ObjectRecognition.TrackerState | object_recognition.py:35-46 | at any time the buffer holds at most `maxFrames` snapshots, namely the last min(k, maxFrames) of the k received, in order, and the recognised objects are their override-merge with unique keys |
| ObjectRecognition.CategorizeObjects | object_recognition.py:127-139 | the loop returns exactly `Categorize(recognized objects, width)` |
| ObjectRecognition.CategorizeCount | object_recognition.py:129-139 | the three lists together are as long as the number of recognised objects |
| ObjectRecognition.LabelsInIff | object_recognition.py:131-138 | a name is listed in a zone iff some recognised object of that name lies in that zone |
| ObjectRecognition.CategorizeExactlyOne | object_recognition.py:131-138 | every recognised label is in exactly the zone its x coordinate selects |
| ObjectRecognition.ZoneBoundaries | object_recognition.py:133-138 | `width//3` and `2*width//3` are both middle; one below the first is left and one above the second is right |
| ObjectRecognition.ZonesAt600 | object_recognition.py:133-138 | for width 600: x=199 is left, x=200 and x=400 are middle, x=401 is right |
| ObjectRecognition.TwoFrameScenario | object_recognition.py:40-46 | a later frame moves "cup" to its new position and adds "book" after it, and the partition at width 600 is (["book"], ["cup"], []) |
| ObjectRecognition.AnnounceObjects | object_recognition.py:141-147 | exactly the three-part announcement is said |
| ObjectRecognition.AnnouncementIsSummary | object_recognition.py:143-145 | for non-empty labels the announcement equals the summary answer of the location query, with an empty zone rendered "None" |
| ObjectRecognition.JoinNonEmpty | object_recognition.py:143 | for non-empty labels, `', '.join(l) or 'None'` equals `', '.join(l) if l else 'None'` |
| ObjectRecognition.ObjectAnswerIff | object_recognition.py:151-158 | the query is answered iff its lower-cased text contains a location keyword |
| ObjectRecognition.HandleObjectQuery | object_recognition.py:149-177 | returns True iff a location keyword occurs; then exactly the keyword's answer is said, and otherwise nothing |
| ObjectRecognition.LocationKeywordIff | object_recognition.py:57-62 | a location keyword is present iff the text contains one of "left", "middle", "center", "right", "object", "objects", "nearby" |
| ObjectRecognition.RegionPrecedence | object_recognition.py:162-173 | left wins, then middle/center, then right, then the summary for object/objects/nearby; no region iff no keyword |
| ObjectRecognition.EmptyZoneAnswers | object_recognition.py:163-172 | an empty asked-for zone gives "No objects on the left." / "No objects in the middle." / "No objects on the right.", and an empty zone in the summary reads "None" |
| GeminiAi.CleanWith | gemini_ai.py:29-31 | the cleaned query is no longer than the lower-cased query and has no leading or trailing whitespace |
| GeminiAi.CleanQuery | gemini_ai.py:29-31 | the cleaning loop removes each wake word in list order, stripping after each one |
| GeminiAi.ComputePrompt | gemini_ai.py:22-34 | computes `Prompt(query)`: the lower-cased query cleaned of the wake words, and none without a wake word or with an empty cleaned text |
| GeminiAi.GenerativeModel.constructor | gemini_ai.py:35 | a new model client has received no prompt |
| GeminiAi.GenerativeModel.GenerateContent | gemini_ai.py:35 | the prompt is recorded and the response is the model's answer to it |
| GeminiAi.AskModel | gemini_ai.py:35-42 | exactly one prompt, the cleaned query, is sent; True iff a response came, and then that response is spoken |
| GeminiAi.QueryGemini | gemini_ai.py:13-43 | True iff an answer was obtained; the model receives the cleaned query only when a prompt exists; what is said is the interruptible rendering of the answer, and nothing when there is none |
| GeminiAi.WakeWordIff | gemini_ai.py:11-25 | the wake-word test holds iff the lower-cased query contains "gemini", so it ignores case and "gemini wake up" alone decides nothing |
| GeminiAi.PromptSpec | gemini_ai.py:22-43 | without a wake word there is no prompt and nothing is said; a prompt is a non-empty, stripped text no longer than the query; an answer implies a prompt was sent |
| GeminiAi.AnswerSpoken | gemini_ai.py:36-38 | an answer that is not interrupted is spoken as exactly its chunks |
| GeminiAi.LeadingWakeWord | gemini_ai.py:22-34 | "Gemini <rest>" with a clean rest free of 'g' prompts the model with exactly rest |
| GeminiAi.CleanWithTwo | gemini_ai.py:29-31 | cleaning with two wake words removes the first, strips, removes the second and strips |
| GeminiAi.WakeUpScenario | gemini_ai.py:29-34 | "Gemini wake up what time" prompts "wake up what time", because "gemini" is removed before "gemini wake up" |
| GeminiAi.BareWakeWord | gemini_ai.py:25-34 | the bare wake word passes the wake-word test but yields no prompt, so the model is not called |
| MainLoop.RouteQuery | main.py:81-92 | routing on the current settings says and sends exactly what `RoutedQuery` prescribes |
| MainLoop.ObjectsThenGemini | main.py:81-86 | with recognition on, the object query is tried first and Gemini only if it declined and Gemini is enabled |
| MainLoop.GeminiOnly | main.py:89-92 | with recognition off, only Gemini is tried, and only when enabled |
| MainLoop.OnDemandTurn | main.py:76-92 | the settings, what is said and what is sent equal `OnDemandOutcome` of the state before the round |
| MainLoop.ContinuousPass | main.py:65-72 | one pass announces the partition iff recognition is on |
| MainLoop.Round | main.py:60-92 | a round runs a continuous pass in continuous mode and an on-demand turn otherwise, as `RoundOutcome` says |
| MainLoop.SilenceChangesNothing | main.py:76-77 | an empty or missing utterance changes no setting, says nothing and sends nothing |
| MainLoop.CommandComesFirst | main.py:79 | a heard utterance is processed as a command first: the settings after the round are the command's, and its acknowledgement is said before anything else |
| MainLoop.ContinuousAfterCommand | main.py:81-92 | if the command leaves continuous mode, only its acknowledgement is said and no prompt is sent |
| MainLoop.RoutingOutsideOnDemand | main.py:81-92 | routing changes no setting, and outside on-demand mode it neither answers nor asks Gemini |
| MainLoop.RoutingRecognitionOn | main.py:81-86 | with recognition on, an answered location query is all that is said and Gemini is not asked; a declined one goes to Gemini exactly when Gemini is enabled |
| MainLoop.RoutingRecognitionOff | main.py:89-92 | with recognition off, the location query is never tried, whatever it would answer; Gemini is asked iff enabled |
| MainLoop.ModelCalledIff | main.py:76-92 | the model is prompted iff the utterance was heard, the settings after the command are on-demand with Gemini on, recognition is off or no location keyword occurs, and a cleaned prompt exists; the prompt is that cleaned text |
| MainLoop.StopQueryReachesNoModel | main.py:79-92 | "stop query" disables Gemini, says "Gemini AI disabled" and the same utterance reaches no model |
| MainLoop.NoPromptWithoutGemini | main.py:85-92 | when the command leaves Gemini disabled, no prompt is sent |
| MainLoop.SwitchToNextIsSilent | main.py:79-92 | "switch to next" switches to continuous mode and only its acknowledgement is said in that round |
| MainLoop.SwitchNextEffect | speech_processing.py:192-195 | a recognised "switch to next" sets only the mode, to continuous, and says its acknowledgement |
| MainLoop.ContinuousGate | main.py:65-72 | a continuous pass says something iff recognition is on, and then what it says is the location summary |
| MainLoop.LabelsNonEmpty | object_recognition.py:131-138 | zone lists carry only the names of recognised objects, so non-empty names stay non-empty |
| MainLoop.ContinuousRoundIgnoresSpeech | main.py:60-72 | in continuous mode the round does not depend on the utterance, keeps the settings and sends no prompt |

## Left out

- Camera capture, the YOLO network, NMS and box drawing are foreign library calls with float numerics. Snapshots enter the model as given inputs. So does the frame width, whose choice between the frame width and the detector's result (main.py:30-34) is not modelled.
- The "disabled" overlays drawn on the frame and `imshow` are display only.
- Speech recognition (`get_voice_input`, the Google and Vosk back ends, the online-to-offline fallback) is I/O. The recognised utterance is a parameter (`Option<string>`, `None` when nothing was heard).
- The listener threads are left out:
  - `background_listener`, `listen_for_mode_switch` and `start_listening_thread` are concurrent;
  - the stop flag is an oracle of the number of chunks spoken;
  - the tracker's lock is not modelled;
  - commands heard by the continuous-mode listener thread are not modelled.
- The continuous-mode inner `while` loop and the outer `while True` loop repeat unboundedly. One pass and one round are modelled.
- `pyttsx3` becomes the `Speaker` log. Speech rate and `runAndWait` blocking are not modelled.
- Vertex AI initialisation and the request are left out. The model is a function from prompt to optional response text, where `None` stands for a falsy response. `response.candidates[0].content.text.strip()` is that text, already extracted.
- `time.sleep` pauses and the printing of `RuntimeError`s and status messages are timing and logging only. A `RuntimeError` raised by the speech engine is not modelled.
- Confidence values are floats and are carried as an opaque type parameter.
- `resource_path` is a PyInstaller file lookup.
- Strings are ASCII. `lower`, `split` and `strip` know only ASCII letters and whitespace, not Unicode case folding or Unicode spaces.
- The mode is the datatype `OnDemand | Continuous` rather than a string, since only these two literals are ever stored.
- `query_gemini`'s Boolean result is unused by main.py. `RouteQuery` discards it the same way.
- ObjectRecognition.AnnounceObjects: the announcement is rendered with `', '.join(l) or 'None'`. This equals the summary form of the location query only when no label is the empty string (`JoinNonEmpty`). The detector never produces an empty label, but the model does not assume it.
