# Art Connect mobile app: the chat components, modelled in Dafny

This project models the client-side logic of the Art Connect mobile app (an
Expo / React Native app in TypeScript). A visitor photographs an artwork,
the app identifies it, and the visitor then chats about it by text or voice.
The model covers these pieces:

- **Photo chat sheet** (`components/PhotoRAGChat.tsx`). This covers:
  - the message list that `handleSend`, `pushAssistant` and `pushVoiceTurn` extend;
  - the order in which a pending answer is settled: "scan first", "rescan", the answer, the apology;
  - the bubble text and `showChatControls`;
  - the bottom sheet's constants, the drag clamp, the snap on release and the keyboard springs.
- **Chat-history list** (`components/ChatHistory.tsx`). This covers:
  - `normalizeS3Url`, which rewrites path-style and virtual-hosted S3 URLs to one form and applies `encodeURI` to the key;
  - the pager behind `load`, which fetches pages of 25 from an offset;
  - the error text a failed load shows;
  - the row title and timestamp fallbacks.
- **Voice sheet** (`components/VoiceRAGChat.tsx`). This covers:
  - the `m:ss` label;
  - the recorder start effect and its cleanup;
  - `toggleMute` and `stopRecordingNow`;
  - the header text.
- **`useSpeechToText`** (`hooks/useSpeechToText.ts`). This is the recogniser's state machine: the callbacks, `start`, `stop` with its 1800 ms fallback timer, and `cancel`. The one resolver slot is tracked with ticket numbers, so the model can say which `stop()` promise settles, with what text, and which one is abandoned.
- **`useFetch`** (`services/useFetch.ts`). This covers `fetchData`, `reset` and the auto-fetch effect.
- **`playBase64Audio`** (`lib/audioPlayer.ts`). This covers stripping the `data:...;base64,` prefix, choosing the file extension and building the cache path.

Modules:

| module | file |
|---|---|
| `Text` | `text.dfy` |
| `Sheet` | `sheet.dfy` |
| `PhotoChat` | `photo_rag_chat.dfy` |
| `UriEncoding` | `uri_encoding.dfy` |
| `S3Url` | `s3_url.dfy` |
| `ChatHistory` | `chat_history.dfy` |
| `VoiceRecorder` | `voice_rag_chat.dfy` |
| `SpeechToText` | `speech_to_text.dfy` |
| `FetchHook` | `use_fetch.dfy` |
| `AudioPlayer` | `audio_player.dfy` |

How the model treats state and async code:

- Components whose handlers update state are classes (`PhotoChatState`, `ChatPager`, `VoiceSheet`, `Recognizer`, `FetchState`). Their methods state the whole new state.
- Each async handler with one `await` is split into two methods: a `Begin` part (the state rendered while the call is in flight) and a `Finish`/`Settle` part. A third method runs both.
- Inputs the code cannot see are parameters:
  - `Date.now()` readings;
  - the scan result;
  - how `postChat`, `fetchPage`, the recorder and the permission prompt settle;
  - the window height, already multiplied by 0.55 and floored.
- Lists are sequences and strings are `seq<char>`.
- The file's mojibake characters (`Sorry â€” I ran into a problem.` and the like) are modelled as they are spelled.

## Model

| member | source | states |
|---|---|---|
| `Text.Trim` | components/PhotoRAGChat.tsx:246-247 | `trim()` gives the empty string exactly for input made only of JavaScript white space; otherwise the result neither starts nor ends with white space (that only white space is cut off is `Text.TrimIsInfix`) |
| `Text.TrimIsInfix` | components/PhotoRAGChat.tsx:246 | the trimmed text is a contiguous piece of the input, and everything cut off before and after it is JavaScript white space |
| `Text.TrimIdempotent` | components/PhotoRAGChat.tsx:246 | trimming a trimmed text changes nothing |
| `Text.ContainsIff` | components/ChatHistory.tsx:201 | the `includes` scan answers true exactly when the substring occurs at some index |
| `Text.NatToStringRoundTrip` | components/PhotoRAGChat.tsx:253 | the decimal text of `Date.now()` in an id reads back as the same number |
| `Text.NatToStringInjective` | components/PhotoRAGChat.tsx:259 | different clock readings give different decimal texts |
| `Sheet.SheetHeight` | components/PhotoRAGChat.tsx:54 | the sheet height is the larger of 400 and the scaled screen height |
| `Sheet.Collapsed` | components/PhotoRAGChat.tsx:55-56 | the collapsed offset is at least -90, and it is negative exactly when the sheet is shorter than the 490 peek |
| `Sheet.Mid` | components/PhotoRAGChat.tsx:58-61 | the middle offset is the floor of half the sum of the collapsed and expanded offsets |
| `Sheet.MidBetween` | components/PhotoRAGChat.tsx:54-61 | the middle offset lies between the two ends |
| `Sheet.Clamp` | components/PhotoRAGChat.tsx:206-210 | the dragged offset stays between expanded and collapsed, and an offset already in that range passes unchanged; on a short screen (collapsed < 0) the clamp always yields expanded |
| `Sheet.ClampIdempotent` | components/PhotoRAGChat.tsx:207-210 | clamping twice is clamping once |
| `Sheet.Insert` | components/PhotoRAGChat.tsx:232 | insertion into the distance-sorted choices adds exactly the new choice, in front of every choice that is not closer |
| `Sheet.InsertSorted` | components/PhotoRAGChat.tsx:232 | insertion keeps the choices sorted by distance |
| `Sheet.SortByDistance` | components/PhotoRAGChat.tsx:232 | the sort returns as many choices, sorted by distance |
| `Sheet.SortByDistancePermutes` | components/PhotoRAGChat.tsx:232 | the sort only reorders the choices |
| `Sheet.SortHeadIsAChoice` | components/PhotoRAGChat.tsx:232-233 | the head of the sorted choices is one of the choices |
| `Sheet.SortHeadIsFirstNearest` | components/PhotoRAGChat.tsx:232-233 | the head of the stably sorted choices is the first choice of least distance |
| `Sheet.NearestOfThree` | components/PhotoRAGChat.tsx:221-233 | of three choices the sort puts first the nearest, ties going to the earlier one |
| `Sheet.SnapTargetChoice` | components/PhotoRAGChat.tsx:215-234 | the release target `SnapTarget` rests on expanded, middle or collapsed: an upward flick faster than 0.8 expands, a downward one collapses, otherwise the nearest wins with ties to expanded, then middle, then collapsed |
| `Sheet.SnapTargetInRange` | components/PhotoRAGChat.tsx:213-234 | every snap target lies between the two ends |
| `Sheet.BubbleMaxHeight` | components/PhotoRAGChat.tsx:360-362 | the bubble always fits inside the sheet, with at least 240 points of room |
| `Sheet.ControlsShrinkBubble` | components/PhotoRAGChat.tsx:360-362 | without the chat controls the bubble has the sheet height less 120, and showing the controls takes exactly 40 more |
| `PhotoChat.UserAndBotIdsDiffer` | components/PhotoRAGChat.tsx:252-263 | user ids and assistant ids never coincide, whatever the clock readings |
| `PhotoChat.BotIdInjective` | components/PhotoRAGChat.tsx:258-263 | assistant ids taken at different milliseconds differ |
| `PhotoChat.ResolvePending` | components/PhotoRAGChat.tsx:274-284 | every message with the pending id is settled with the new text and keeps id, role and channel; every other message is unchanged; the length is kept |
| `PhotoChat.ResolvePendingIdempotent` | components/PhotoRAGChat.tsx:317-323 | settling the same id twice with the same text is settling it once |
| `PhotoChat.ResolveFreshPending` | components/PhotoRAGChat.tsx:265-284 | when no earlier message has the pending id, settling touches only the pending message just appended |
| `PhotoChat.RouteOf` | components/PhotoRAGChat.tsx:273-308 | a question goes nowhere without a match and a top result (the first search result, line 344), nowhere (with an error) without a scan id, and otherwise to the chat API with that non-empty scan id; the three cases are exclusive and exhaustive |
| `PhotoChat.ArtistGreeting` | components/PhotoRAGChat.tsx:353 | the greeting naming the artist starts with `T`, which no other bubble text does |
| `PhotoChat.BubbleText` | components/PhotoRAGChat.tsx:348-356 | each bubble text appears exactly when its condition is the first of loading, error, match with artist name, any search, none to hold |
| `PhotoChat.ControlsShowIdentificationBubble` | components/PhotoRAGChat.tsx:348-358 | while the chat controls show (`ShowChatControls`: a match, not loading, no error), the bubble greets the named artist or says the artwork was not identified |
| `PhotoChat.TurnOfShape` | components/PhotoRAGChat.tsx:364-387 | a voice turn of trimmed texts adds one voice-tagged, settled, non-empty message per non-empty text, user before assistant |
| `PhotoChat.VoiceTurnShape` | components/PhotoRAGChat.tsx:364-387 | a voice turn adds the trimmed transcript if it is not blank, then the trimmed answer if it is not blank, each voice-tagged and settled |
| `PhotoChat.PhotoChatState.constructor` | components/PhotoRAGChat.tsx:79-91 | a new sheet has no messages, an empty input, and rests collapsed |
| `PhotoChat.PhotoChatState.TypeText` | components/PhotoRAGChat.tsx:660 | typing replaces the input text and nothing else |
| `PhotoChat.PhotoChatState.PushAssistant` | components/PhotoRAGChat.tsx:116-121 | one settled assistant message with the given text is appended |
| `PhotoChat.PhotoChatState.PushVoiceTurn` | components/PhotoRAGChat.tsx:364-387 | the list grows by exactly the voice turn's messages |
| `PhotoChat.PhotoChatState.AppendQuestion` | components/PhotoRAGChat.tsx:249-271 | the question is reported, the input cleared, the user message (first clock reading) and the pending message (second reading) appended, and the sheet rests at the middle; nothing else changes |
| `PhotoChat.PhotoChatState.SettlePending` | components/PhotoRAGChat.tsx:317-323 | one settle step replaces the list by its resolution |
| `PhotoChat.PhotoChatState.BeginSend` | components/PhotoRAGChat.tsx:245-306 | input that trims to blank (`ToSend`: the argument, else the input box, trimmed) changes nothing; otherwise the two messages are appended with ids from two clock readings and the pending one is settled at once with "scan first" or "rescan" (with an error), or the chat call starts with loading on |
| `PhotoChat.PhotoChatState.FinishSend` | components/PhotoRAGChat.tsx:308-335 | the pending message takes the answer, or the apology with the thrown message as error; loading ends |
| `PhotoChat.PhotoChatState.Send` | components/PhotoRAGChat.tsx:245-336 | a blank send changes nothing at all; a whole non-blank send leaves the history untouched and adds the trimmed question and its settled reply (scan first, rescan, the answer or the apology), leaves the sheet at the middle and states loading and the error for each route |
| `PhotoChat.PhotoChatState.OnPanGrant` | components/PhotoRAGChat.tsx:201-203 | a drag starts from the current offset; nothing else changes |
| `PhotoChat.PhotoChatState.OnPanMove` | components/PhotoRAGChat.tsx:204-212 | while the keyboard is down the offset follows the finger, clamped; with the keyboard up nothing moves; nothing else changes |
| `PhotoChat.PhotoChatState.OnPanRelease` | components/PhotoRAGChat.tsx:213-240 | with the keyboard down the sheet rests on the snap target and the next drag starts there; the offset stays in range; nothing else changes |
| `PhotoChat.PhotoChatState.OnKeyboardShow` | components/PhotoRAGChat.tsx:156-166 | the keyboard appearing expands the sheet fully; nothing else changes |
| `PhotoChat.PhotoChatState.OnKeyboardHide` | components/PhotoRAGChat.tsx:168-177 | the keyboard hiding collapses the sheet; nothing else changes |
| `PhotoChat.PhotoChatState.OnScanChanged` | components/PhotoRAGChat.tsx:145-153 | a search result with nothing loading springs the sheet to the middle; otherwise nothing moves; nothing else changes |
| `PhotoChat.PhotoChatState.OnInputFocus` | components/PhotoRAGChat.tsx:665-671 | focusing the input box expands the sheet fully; nothing else changes |
| `UriEncoding.EncodeChar` | components/ChatHistory.tsx:34 | a URI character is kept as it is; any other becomes at least one `%XX` escape |
| `UriEncoding.EncodeUriAlphabet` | components/ChatHistory.tsx:34 | `encodeURI` writes only URI characters and `%` |
| `UriEncoding.EncodeUriIdentityIff` | components/ChatHistory.tsx:34 | `EncodeUri` (the model of `encodeURI`) leaves a string unchanged exactly when all its characters are URI characters |
| `UriEncoding.EncodeUriAllUnescapedIff` | components/ChatHistory.tsx:42 | the encoding is free of escapable characters exactly when its input was |
| `UriEncoding.EscapedLeavesPercent` | components/ChatHistory.tsx:42 | each escaped character leaves a `%` in the encoding |
| `UriEncoding.EncodePercent` | components/ChatHistory.tsx:34 | a `%` is encoded as `%25` |
| `UriEncoding.Utf8RoundTrip` | components/ChatHistory.tsx:34 | the UTF-8 bytes of a character decode back to it |
| `UriEncoding.EscapeAllRoundTrip` | components/ChatHistory.tsx:34 | escaped bytes read back as the same bytes |
| `UriEncoding.DecodeEncodeUri` | components/ChatHistory.tsx:34 | percent-decoding undoes `EncodeUri`, the model of `encodeURI` |
| `S3Url.MatchPath` | components/ChatHistory.tsx:29-31 | a path-style match has admissible groups and is exactly the path-style URL built from them |
| `S3Url.MatchPathComplete` | components/ChatHistory.tsx:29-31 | every path-style URL of admissible parts matches, giving back its parts |
| `S3Url.VhostAt` | components/ChatHistory.tsx:37-39 | a virtual-hosted match with the bucket ending at a given index is exactly the URL built from its admissible groups |
| `S3Url.VhostAtComplete` | components/ChatHistory.tsx:37-39 | a virtual-hosted URL matches with its own bucket |
| `S3Url.MatchVhost` | components/ChatHistory.tsx:37-39 | the greedy virtual-hosted match is one of the bucket candidates and rebuilds the input |
| `S3Url.MatchVhostLongest` | components/ChatHistory.tsx:38 | no bucket longer than the greedy one lets the pattern match |
| `S3Url.NormalizeS3Url` | components/ChatHistory.tsx:26-46 | a missing or empty URL gives none; the path-style rewrite is tried first, then the virtual-hosted one; an input matching neither is returned as it is |
| `S3Url.NormalizePathStyle` | components/ChatHistory.tsx:29-35 | a path-style URL becomes the dot-form virtual-hosted URL of the same bucket and region with its key encoded |
| `S3Url.VhostNotPathStyle` | components/ChatHistory.tsx:29-32 | a virtual-hosted URL does not match the path-style pattern |
| `S3Url.VhostUnique` | components/ChatHistory.tsx:37-41 | a virtual-hosted URL is matched with exactly its own bucket, region and key |
| `S3Url.VhostNoLongerBucket` | components/ChatHistory.tsx:38 | no longer bucket than the URL's own makes the virtual-hosted pattern match |
| `S3Url.NormalizeVhostStyle` | components/ChatHistory.tsx:37-43 | a virtual-hosted URL, in dot or dash form, becomes the dot form with its key encoded |
| `S3Url.NormalizeTwice` | components/ChatHistory.tsx:37-43 | a rewritten URL is rewritten again with its key encoded a second time |
| `S3Url.NormalizeTwiceFixedIff` | components/ChatHistory.tsx:37-43 | the second rewrite is harmless exactly when `encodeURI` leaves the key unchanged |
| `ChatHistory.RowTitle` | components/ChatHistory.tsx:66 | the title is the scan title if it is non-empty, else the artwork title if non-empty, else "Untitled"; never empty |
| `ChatHistory.RowTitleFallbacks` | components/ChatHistory.tsx:66 | the row reads "Untitled" exactly when no title is set or the chosen title is itself "Untitled" |
| `ChatHistory.WhenSource` | components/ChatHistory.tsx:67 | the timestamp is the last-message time if it is non-empty, else the creation time; it is always one of the two, and empty exactly when both are |
| `ChatHistory.ThrownText` | components/ChatHistory.tsx:199 | the shown text is the thrown message when it is non-empty, else the `String(e)` form; empty only when both are |
| `ChatHistory.Friendly` | components/ChatHistory.tsx:199-203 | a message naming a network failure or a TypeError becomes the fixed hint; any other is shown as it is |
| `ChatHistory.HintIsNoTransportFailure` | components/ChatHistory.tsx:200-202 | the hint itself contains neither trigger phrase |
| `ChatHistory.FriendlyIdempotent` | components/ChatHistory.tsx:199-203 | mapping a message twice gives what mapping it once gives |
| `ChatHistory.NormalizeRows` | components/ChatHistory.tsx:175-178 | every row keeps all its fields except the image URL, which is normalised |
| `ChatHistory.ChatPager.constructor` | components/ChatHistory.tsx:134-143 | the pager starts with no rows, offset 0, more pages expected and nothing loading |
| `ChatHistory.ChatPager.BeginLoad` | components/ChatHistory.tsx:187-193 | a load starts exactly when none is running and, for an append, more pages are expected; it asks from the current offset (append) or 0 (refresh) |
| `ChatHistory.ChatPager.FinishLoad` | components/ChatHistory.tsx:194-207 | a page replaces or extends the rows, the offset follows, and more pages are expected exactly after a full page of 25; a failure keeps the rows and sets the error text from the thrown message, or its `String(e)` form when the message is empty; loading ends |
| `ChatHistory.ChatPager.Load` | components/ChatHistory.tsx:187-210 | a whole load: the guard, then the page or the error, with the offset always equal to the number of rows |
| `ChatHistory.ChatPager.OnEndReached` | components/ChatHistory.tsx:257-259 | a load starts exactly when nothing is loading and more pages are expected, from the current row count; otherwise nothing changes; a started load ends not loading, with the page appended, `hasMore` set by its size and no error, or with the rows and `hasMore` kept and the error text set |
| `ChatHistory.RowImageEncodesKeyTwice` | components/ChatHistory.tsx:68 | as written, a fetched row shows its image URL normalised twice, wrong exactly when the key has an escapable character |
| `ChatHistory.RowImageEncodesKeyOnce` | components/ChatHistory.tsx:175-178 | with the corrected row the key of an S3 URL is encoded once |
| `ChatHistory.SpaceInKeyEncodedTwice` | components/ChatHistory.tsx:68 | the key `a b` becomes `a%20b` in the list data and `a%2520b` in the rendered row |
| `VoiceRecorder.PadStart2` | components/VoiceRAGChat.tsx:67 | a string shorter than two is left-padded with zeros to two; a longer one is kept |
| `VoiceRecorder.MmssRoundTrip` | components/VoiceRAGChat.tsx:63-68 | the `Mmss` label reads back as the whole minutes and the seconds (below 60) of the duration, and is `0:00` with no duration |
| `VoiceRecorder.HeaderText` | components/VoiceRAGChat.tsx:159-183 | nothing is rendered while hidden; the header reads "Muted" exactly when muted and "Listening..." otherwise |
| `VoiceRecorder.VoiceSheet.constructor` | components/VoiceRAGChat.tsx:33-36 | a new sheet is hidden, unmuted, not recording, and has not closed or reported a recording |
| `VoiceRecorder.VoiceSheet.StartRecording` | components/VoiceRAGChat.tsx:73-97 | recording starts, unmuted, only when permission is granted and every recorder call succeeds; a refusal alerts and closes; any failure closes once |
| `VoiceRecorder.VoiceSheet.Cleanup` | components/VoiceRAGChat.tsx:100-108 | cleanup unmutes and stops a running recorder; a failing stop is swallowed |
| `VoiceRecorder.VoiceSheet.Show` | components/VoiceRAGChat.tsx:71-110 | showing the sheet runs the previous cleanup, then the start routine |
| `VoiceRecorder.VoiceSheet.Hide` | components/VoiceRAGChat.tsx:98-110 | hiding the sheet runs the cleanup only |
| `VoiceRecorder.VoiceSheet.ToggleMute` | components/VoiceRAGChat.tsx:121-139 | unmuted: start if idle, then pause and mute; muted: resume and unmute; a throwing call leaves `muted` as it was |
| `VoiceRecorder.VoiceSheet.StopRecordingNow` | components/VoiceRAGChat.tsx:141-157 | stops a running recorder, reports a non-empty URI only when stop did not throw, then always unmutes and closes exactly once |
| `SpeechToText.BestText` | hooks/useSpeechToText.ts:36 | the final text when it is set, else the partial; empty exactly when both are |
| `SpeechToText.TimeoutText` | hooks/useSpeechToText.ts:87 | the fallback order: the partial text when it is set, else the final; empty exactly when both are |
| `SpeechToText.BestAndTimeoutAgree` | hooks/useSpeechToText.ts:79-87 | the two orders of preference agree whenever at most one distinct text is set |
| `SpeechToText.Recognizer.constructor` | hooks/useSpeechToText.ts:10-15 | not listening, both texts empty, no resolver waiting |
| `SpeechToText.Recognizer.ResolvePending` | hooks/useSpeechToText.ts:37-40 | the waiting resolver, if any, settles its promise once with the text and its timer is cleared; the slot is emptied |
| `SpeechToText.Recognizer.OnPartialResults` | hooks/useSpeechToText.ts:18-21 | only the partial text changes, to the first alternative or the empty string when the event has none |
| `SpeechToText.Recognizer.OnResults` | hooks/useSpeechToText.ts:23-31 | the final text is set to the first alternative (empty when there is none), partial cleared, a waiting stop() settles with it and its timer is cleared, listening ends |
| `SpeechToText.Recognizer.OnEnd` | hooks/useSpeechToText.ts:34-42 | a waiting stop() settles with the final text, else the partial, and its timer is cleared; listening ends; the texts stay |
| `SpeechToText.Recognizer.OnError` | hooks/useSpeechToText.ts:44-50 | the same as the end of speech, so the UI is never left waiting; the settled stop()'s timer is cleared |
| `SpeechToText.Recognizer.Start` | hooks/useSpeechToText.ts:58-69 | both texts are cleared; a refused Android permission leaves `listening` as it was, otherwise listening begins |
| `SpeechToText.Recognizer.Stop` | hooks/useSpeechToText.ts:71-99 | with text at hand it answers at once; otherwise it installs a fresh resolver and arms its timer, abandoning an earlier waiting stop() whose promise then never settles |
| `SpeechToText.Recognizer.TimerFires` | hooks/useSpeechToText.ts:85-91 | a fallback timer that was not cleared settles whatever resolver is waiting and ends listening; it reads the texts of the render that ran its stop(), both empty, so the promise settles with the empty string |
| `SpeechToText.Recognizer.Cancel` | hooks/useSpeechToText.ts:101-110 | listening ends, both texts are cleared, and a waiting stop() settles with the empty string and its timer is cleared |
| `FetchHook.FetchState.constructor` | services/useFetch.ts:54-56 | no data, not loading, no error |
| `FetchHook.FetchState.Begin` | services/useFetch.ts:58-62 | loading on, error cleared, data kept while the fetch runs |
| `FetchHook.FetchState.Settle` | services/useFetch.ts:63-70 | a result replaces the data; a failure keeps the data and stores a thrown `Error` as it is and anything else as an `Error` with the fallback message; loading ends either way |
| `FetchHook.FetchState.FetchData` | services/useFetch.ts:58-71 | a whole fetch: new data or old data with the error, the error cleared on success, never left loading |
| `FetchHook.FetchState.Reset` | services/useFetch.ts:73-77 | back to no data, not loading, no error |
| `FetchHook.FetchState.OnDependenciesChanged` | services/useFetch.ts:79-83 | the effect fetches only when auto-fetch is on; otherwise nothing changes |
| `AudioPlayer.LastMatch` | lib/audioPlayer.ts:8 | the greedy `.*` takes the last `;base64,` the pattern can reach |
| `AudioPlayer.StripDataPrefix` | lib/audioPlayer.ts:8 | the result is a suffix of the payload, shorter exactly when the data-URI pattern matches, cut after the last reachable `;base64,`; an input not starting with `data:` is kept |
| `AudioPlayer.StripIdempotent` | lib/audioPlayer.ts:8 | stripping twice is stripping once |
| `AudioPlayer.Ext` | lib/audioPlayer.ts:9 | the extension is `m4a` exactly when the MIME type contains `m4a` or `mp4`, otherwise `mp3` |
| `AudioPlayer.DefaultMimeIsMp3` | lib/audioPlayer.ts:6-9 | the default MIME type `audio/mpeg` gives an `.mp3` file |
| `AudioPlayer.CachePath` | lib/audioPlayer.ts:10 | the path is the cache directory, `reply_`, a numeral that reads back as the clock reading, `.` and the extension |
| `AudioPlayer.CachePathsDiffer` | lib/audioPlayer.ts:10 | clock readings at different milliseconds give different cache paths |
| `AudioPlayer.CacheFileFor` | lib/audioPlayer.ts:8-14 | the file is written at `CachePath` for the chosen extension, ending `.m4a` or `.mp3`, and holds the stripped payload |

## Left out

- I/O and platform calls are outside the model:
  - the image search, chat API, voice-chat upload and `fetch` (including the 12 s `AbortController` timer of `fetchPage`);
  - Clerk sign-in and tokens;
  - `expo-file-system`, `expo-av` and `expo-audio`;
  - `@react-native-voice/voice` (`Voice.start`/`stop`/`cancel`/`destroy`/`removeAllListeners`);
  - alerts and console logging.

  How each settles is a parameter. `fetchPage`'s missing-configuration, not-signed-in and HTTP errors all reach the model as a failure message.
- `runSearch` (the image search) is not modelled. Its outcome is the `ScanView` parameter.
- Timing and rendering are not modelled: animation timing, springs (their end value is taken as reached), the mic pulse, keyboard heights and `sheetBottom`, scrolling, and the layout and styling of every component. `SUGGESTIONS` is not modelled beyond its buttons calling `handleSend`.
- The screen height is a floating-point value; the model takes `floor(SCREEN_HEIGHT * 0.55)` as an integer parameter. Gesture offsets and velocities are reals (no floating-point rounding).
- `formatWhen` (`Intl.DateTimeFormat`) is not modelled; only the choice of timestamp (`WhenSource`) is.
- React scheduling is not modelled:
  - updates are applied at once, not batched;
  - handlers read current state, not a stale closure, except the fallback timer of `stop()`, which keeps the texts of the render that armed it;
  - effects run synchronously;
  - `mounted` in the voice sheet's start routine is not tracked, so the race of a sheet hidden while the recorder is still starting is left out.
- `refreshing` of `onRefresh` is not modelled; it only wraps `load(false)`.
- In the photo chat, thrown values are modelled as their message: `e?.message ?? String(e)` (components/PhotoRAGChat.tsx:135, 325) for a value without a message is not modelled. The chat-history load models `e?.message || String(e)` with `String(e)` as a parameter. A `postChat` reply whose `answer` is missing is not modelled either: an answer is always a string.
- Trim: its own contract does not say what is removed, which keeps every caller cheap; `TrimIsInfix` proves that only JavaScript white space is cut off on either side.
- `encodeURI` on a lone surrogate throws a `URIError`. Dafny's `char` is a Unicode scalar value, so this input cannot arise.
- `PhotoChat.PhotoChatState.Send` requires that no earlier message carries this send's `bot_<now>` id. The code settles every message with that id (two sends within one millisecond share it); `BeginSend`, `FinishSend` and `ResolvePending` model that behaviour without the requirement.
- `S3Url.VhostUnique` and the lemmas built on it assume the region does not itself start with `s3`. For such a region the greedy bucket can swallow `.s3` (`b.s3.s3-x...` matches with bucket `b.s3`).
- `S3Url.VhostNotPathStyle` and `S3Url.NormalizeVhostStyle` exclude the dash form with the bucket `s3`, which the path-style pattern can also match.

## Findings

| source | as written | input that shows it | evidently intended | confidence | as-written member | corrected member |
|---|---|---|---|---|---|---|
| components/ChatHistory.tsx:68 | `ChatRow` passes the image URL through `normalizeS3Url`, but `fetchPage` (lines 175-178) already normalised it. The rewritten URL matches the virtual-hosted pattern again, so `encodeURI` runs on the key a second time | an image at `https://s3.eu-west-1.amazonaws.com/b/a b`: the list data holds key `a%20b`, and the row requests `a%2520b` | normalise once and render the URL `fetchPage` produced | not executed | `ChatHistory.RowImageEncodesKeyTwice` | `ChatHistory.RowImageEncodesKeyOnce` |
