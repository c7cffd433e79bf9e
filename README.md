# ScribeAI recording pipeline, modelled in Dafny

ScribeAI records a meeting in the browser, streams the audio over socket.io
to a Node server, relays it to Deepgram's live transcription, and pushes the
transcript lines back to the page. Saved transcripts can be listed, opened and
summarised. This project models the rule-bearing core of that pipeline and
proves what each part promises:

- `store.dfy` (module `Recording`): the client's recording store. It holds the
  status, the audio source, the transcript lines, the session id and the last
  error. A setter changes its own field and nothing else. `reset` keeps only
  the audio mode.
- `audio_recorder.dfy` (module `AudioRecorder`): the capture hook as a class.
  - Start is guarded by the readiness flags. Pause and resume act only in the
    right recorder state.
  - Stop moves the status to processing when the recorder's stop event
    arrives, and back to idle when the 500 ms timer fires.
  - Reset goes straight to idle.
  - Only non-empty chunks are buffered and sent.
  - Tab capture drops its video tracks.
- `client_socket.dfy` (module `ClientSocket`): the browser's transport
  wrapper.
  - One lazily created shared socket.
  - Audio sends that are dropped rather than queued while disconnected.
  - Subscriptions whose returned unsubscribe removes exactly what they
    registered.
- `relay.dfy` (module `Relay`): the server's per-connection relay.
  - `Step`/`Run` specify it, and a class with one method per handler is
    proved to follow `Step`.
  - Lemmas over arbitrary event traces state the promises: one upstream
    stream per connection; no frame forwarded before upstream opens; the
    frames forwarded are exactly those received, in order, while open;
    blank transcripts are filtered; malformed payloads are swallowed;
    `finish()` is called once if and only if upstream was open when the
    client left.
- `controls.dfy` (module `Controls`): which buttons the recording panel shows
  for each status. It proves that the panel offers an action exactly when
  the recording lifecycle has a transition for it.
- `transcript_feed.dfy` (module `TranscriptFeed`): the transcript panel's
  save flow. It covers the Save button's enable rule, the title dialog, the
  guard sequence of `handleSave` and the request it sends, whose text is the
  lines joined by single spaces.
- `sessions.dfy` (module `Sessions`): the saved-session routes. The list is
  the user's rows, newest first, projected. Get-by-id has an ownership check
  and a 404. The summary route is get-or-create and creates a row at most
  once. A storage failure gives a 500.
- `js_string.dfy` (module `JsString`): JavaScript's `trim` over the
  ECMAScript whitespace set, and `join`/`split`. `optional.dfy` defines
  `Option`.

Browser, network and database effects are inputs:

- What the capture request returns, whether the recorder can be created, and
  the recorder's data, stop, error and timer callbacks are method calls or
  parameters.
- The transport coming up or going down is `TransportUp`/`TransportDown`.
- The stored login token and the save request's result are parameters of
  `HandleSave`.
- Where the storage layer fails is a parameter of each route.
- The authenticated user id is an input.

The status readiness rule follows the hook's code, not its design comment.
`isReady` is set by the socket's plain `connect` event as well as by the
server's `deepgram-ready` event (`frontend/hooks/use-audio-recorder.ts`
lines 40-46 and 61-65), so a start can succeed before the upstream stream is
open. Frames sent in that window are dropped by the relay, which
`Relay.DroppedBeforeOpen` states.

The mount path `InitSocket` is the corrected one listed under "## Findings": a
shared socket that is already connected makes a new mount ready at once.
`InitSocketAsWritten` keeps the code's own behaviour beside it.

## Model

| member | source | states |
|---|---|---|
| Recording.InitialState | frontend/lib/store.ts:22-27 | the store starts idle, with the microphone, no lines, no session id and no error |
| Recording.AfterReset | frontend/lib/store.ts:37-42 | reset clears status, lines, session id and error and keeps the audio mode; it is the initial state with the audio mode carried over |
| Recording.ResetIdempotent | frontend/lib/store.ts:37-42 | resetting twice is resetting once |
| Recording.RecordingStore.constructor | frontend/lib/store.ts:22-27 | a new store holds the initial state |
| Recording.RecordingStore.SetStatus | frontend/lib/store.ts:29 | only the status changes |
| Recording.RecordingStore.SetAudioMode | frontend/lib/store.ts:30 | only the audio mode changes |
| Recording.RecordingStore.AddTranscriptLine | frontend/lib/store.ts:31-33 | exactly one line is appended at the end, earlier lines keep their order, no other field changes |
| Recording.RecordingStore.ClearTranscript | frontend/lib/store.ts:34 | the lines are emptied and nothing else changes |
| Recording.RecordingStore.SetCurrentSessionId | frontend/lib/store.ts:35 | only the session id changes |
| Recording.RecordingStore.SetError | frontend/lib/store.ts:36 | only the error changes |
| Recording.RecordingStore.Reset | frontend/lib/store.ts:37-42 | the new state is the reset of the old one: audio mode kept, all else back to initial |
| ClientSocket.RemoveFirstMultiset | frontend/lib/socket.ts:59 | unsubscribing removes one registration of the callback and keeps every other registration |
| ClientSocket.RemoveFirstAbsent | frontend/lib/socket.ts:59 | unsubscribing a callback that is not registered changes nothing |
| ClientSocket.RemoveFirstAt | frontend/lib/socket.ts:59 | the first registration is the one removed, and the rest keep their order |
| ClientSocket.SubscribeThenUnsubscribe | frontend/lib/socket.ts:56-60 | registering a new callback and calling its unsubscribe restores the callback list exactly |
| ClientSocket.SubscribeThenUnsubscribeTable | frontend/lib/socket.ts:56-60 | the same for the socket's whole listener table, whatever else is registered |
| ClientSocket.UnregisteredKeepsNoEmptyEntries | frontend/lib/socket.ts:59 | unsubscribing never leaves an event with an empty callback list |
| ClientSocket.Socket.constructor | frontend/lib/socket.ts:12-30 | a new socket is not connected, has sent nothing, has autoConnect off, reconnection on, delays 1000 and 5000 ms and 5 attempts, and has the three logging handlers |
| ClientSocket.Socket.On | frontend/lib/socket.ts:58 | the callback is appended to its event's list; the connection and sent frames are untouched |
| ClientSocket.Socket.Off | frontend/lib/socket.ts:59 | the first registration of the callback is removed; an emptied event is dropped |
| ClientSocket.Socket.Disconnect | frontend/lib/socket.ts:44 | the socket is neither connected nor trying to connect; sent frames and listeners are kept |
| ClientSocket.Socket.Emit | frontend/lib/socket.ts:52 | exactly one frame is appended to what was sent |
| ClientSocket.Socket.Connect | frontend/hooks/use-audio-recorder.ts:73 | the socket starts connecting; the connection itself comes later |
| ClientSocket.SocketUrl | frontend/lib/socket.ts:10 | the address is never empty: the configured one when it is set and non-empty, the default otherwise |
| ClientSocket.SocketModule.InitializeSocket | frontend/lib/socket.ts:5-33 | an existing socket is returned as it is; otherwise a new one is made for the configured or default address with the fixed options, and kept |
| ClientSocket.SocketModule.GetSocket | frontend/lib/socket.ts:35-40 | the same instance is returned while one exists; otherwise one is created |
| ClientSocket.SocketModule.DisconnectSocket | frontend/lib/socket.ts:42-47 | the shared socket is disconnected and forgotten, keeping its sent frames and listeners; with none, nothing happens |
| ClientSocket.SocketModule.EmitAudioChunk | frontend/lib/socket.ts:49-54 | one frame is sent when connected; when not, nothing is sent or queued; the connection state and listeners are untouched; with no socket yet, a new unconnected one is made and nothing is sent |
| ClientSocket.SocketModule.Subscribe | frontend/lib/socket.ts:56-60 | the callback is registered on the shared socket, and the handle names that socket, event and callback; the connection state and sent frames are untouched |
| ClientSocket.SocketModule.OnTranscript | frontend/lib/socket.ts:56-60 | registers the callback for `transcript` and returns its unsubscribe handle; the connection state (connected and connect-requested) and sent frames are untouched |
| ClientSocket.SocketModule.OnProcessing | frontend/lib/socket.ts:62-66 | the same for `processing`, with the connection and sent frames untouched |
| ClientSocket.SocketModule.OnCompleted | frontend/lib/socket.ts:68-72 | the same for `completed`, with the connection and sent frames untouched |
| ClientSocket.Unsubscribe | frontend/lib/socket.ts:59 | removes exactly the registration the handle names, from the socket it was made on; its connection state and sent frames are untouched |
| ClientSocket.OneSocketUntilDisconnect | frontend/lib/socket.ts:35-47 | two calls return the same socket; after a disconnect the next call returns a new, unconnected one |
| ClientSocket.TranscriptSubscriptionUndone | frontend/lib/socket.ts:56-60 | subscribing then unsubscribing a transcript callback leaves the listener table as it was |
| AudioRecorder.AudioOnlySpec | frontend/hooks/use-audio-recorder.ts:138-149 | after video removal the stream holds only audio tracks, still holds every audio track, and kept plus removed tracks are the original tracks |
| AudioRecorder.DiscardVideoTracks | frontend/hooks/use-audio-recorder.ts:138-149 | the loop stops exactly the video tracks and keeps the audio tracks, both in order |
| AudioRecorder.NonEmptyChunksAppend | frontend/hooks/use-audio-recorder.ts:167-177 | handling chunks one by one buffers the same as filtering them all, in arrival order |
| AudioRecorder.NonEmptyChunksSpec | frontend/hooks/use-audio-recorder.ts:169-173 | no empty chunk is buffered and no non-empty chunk is lost |
| AudioRecorder.AudioRecorderHook.constructor | frontend/hooks/use-audio-recorder.ts:18-25 | no recorder, stream, socket or chunks; all three flags false |
| AudioRecorder.AudioRecorderHook.ReleaseStream | frontend/hooks/use-audio-recorder.ts:120-123 | every track of the held stream is stopped, in order, and the stream is forgotten; nothing else changes |
| AudioRecorder.RegisterReadinessHandlers | frontend/hooks/use-audio-recorder.ts:67-70 | the four readiness callbacks are appended in order; the connection and sent frames are untouched |
| AudioRecorder.AudioRecorderHook.InitSocket | frontend/hooks/use-audio-recorder.ts:28-74 | corrected: afterwards a connected socket always means ready. With the hook's own socket connected, it only marks ready and no socket changes. Otherwise the shared socket is taken with the four callbacks added; a socket already connected marks ready, any other is connecting |
| AudioRecorder.AudioRecorderHook.InitSocketAsWritten | frontend/hooks/use-audio-recorder.ts:28-74 | as written: the same first path; otherwise the shared socket is taken with the four callbacks added, readiness is kept as it was and connecting is set, even when the socket is already connected |
| AudioRecorder.AudioRecorderHook.OnConnect | frontend/hooks/use-audio-recorder.ts:40-46 | ready and no longer connecting; nothing else changes |
| AudioRecorder.AudioRecorderHook.OnDisconnect | frontend/hooks/use-audio-recorder.ts:48-51 | not ready; nothing else changes |
| AudioRecorder.AudioRecorderHook.OnConnectError | frontend/hooks/use-audio-recorder.ts:53-57 | neither ready nor connecting; nothing else changes |
| AudioRecorder.AudioRecorderHook.OnDeepgramReady | frontend/hooks/use-audio-recorder.ts:61-65 | ready and no longer connecting; nothing else changes |
| AudioRecorder.AudioRecorderHook.StartRecording | frontend/hooks/use-audio-recorder.ts:101-207 | while resetting nothing changes; while not ready only the "Still connecting" error is set. Otherwise the error is cleared and the old recorder and stream are stopped. Then a refused capture, a recorder that cannot be created or a `start` that throws ends idle with the failure's message; a recorder that starts ends recording with a 1000 ms timeslice. Readiness is kept on every path, and only a start that succeeds touches the socket |
| AudioRecorder.AudioRecorderHook.BeginCapture | frontend/hooks/use-audio-recorder.ts:113-206 | the start after its guards: error cleared, the old recorder and stream stopped, then the capture's and the recorder's outcome as for a start; readiness and the socket are untouched unless the recorder starts |
| AudioRecorder.AudioRecorderHook.StartRecorder | frontend/hooks/use-audio-recorder.ts:162-201 | a constructor that throws leaves the old recorder and buffer and ends idle; a `start` that throws leaves a never-started recorder and an empty buffer and ends idle; a recorder that starts records with a 1000 ms timeslice and an empty buffer, and the socket is ensured |
| AudioRecorder.AudioRecorderHook.HoldStream | frontend/hooks/use-audio-recorder.ts:128-153 | the captured stream is held; in tab mode its video tracks are stopped first |
| AudioRecorder.AudioRecorderHook.EnsureSocket | frontend/hooks/use-audio-recorder.ts:199-201 | afterwards a socket exists and is connected or connecting; an existing one keeps its listeners, frames and connection; with none, the mount path runs |
| AudioRecorder.AudioRecorderHook.PauseRecording | frontend/hooks/use-audio-recorder.ts:210-219 | a recording recorder is paused and the status becomes paused; in any other state nothing changes |
| AudioRecorder.AudioRecorderHook.ResumeRecording | frontend/hooks/use-audio-recorder.ts:222-231 | a paused recorder resumes and the status becomes recording; in any other state nothing changes |
| AudioRecorder.AudioRecorderHook.StopRecording | frontend/hooks/use-audio-recorder.ts:234-251 | an active recorder is stopped, so one stop event is pending; the stream is released; the status is untouched |
| AudioRecorder.AudioRecorderHook.OnRecorderStop | frontend/hooks/use-audio-recorder.ts:185-193 | a pending stop event sets processing and schedules one timer; nothing else changes |
| AudioRecorder.AudioRecorderHook.OnTimerFires | frontend/hooks/use-audio-recorder.ts:189-192 | a scheduled timer sets idle and empties the chunk buffer; nothing else changes |
| AudioRecorder.AudioRecorderHook.OnDataAvailable | frontend/hooks/use-audio-recorder.ts:167-177 | a non-empty chunk is buffered and sent if the shared socket is connected, leaving its connection state and listeners as they were, and creating an unconnected socket if none exists; an empty one changes no socket at all; the hook's other state is untouched |
| AudioRecorder.AudioRecorderHook.OnRecorderError | frontend/hooks/use-audio-recorder.ts:179-183 | idle, with "Recording error occurred"; nothing else in the store changes; the platform then stops an active recorder, whose stop event is still to come |
| AudioRecorder.AudioRecorderHook.OnRecorderEnded | frontend/hooks/use-audio-recorder.ts:185-193 | the platform stops an active recorder by itself, so its stop event, and with it the processing phase, is still to come; nothing else changes |
| AudioRecorder.AudioRecorderHook.ResetRecording | frontend/hooks/use-audio-recorder.ts:254-282 | idle and no lines at once, with no stop event to come; stream released, recorder and chunks gone, not resetting, socket untouched |
| AudioRecorder.AudioRecorderHook.Unmount | frontend/hooks/use-audio-recorder.ts:80-97 | an active recorder is stopped and the stream released; the socket and the scheduled timers stay |
| AudioRecorder.StopPassesThroughProcessing | frontend/hooks/use-audio-recorder.ts:185-193 | after a start and a stop the status goes recording, processing, idle, and the buffer ends empty |
| AudioRecorder.ResetSkipsProcessing | frontend/hooks/use-audio-recorder.ts:254-282 | after a reset the status is idle, the lines are gone, and a later stop event changes nothing |
| AudioRecorder.ErrorThenStopEvent | frontend/hooks/use-audio-recorder.ts:179-193 | a recorder error sets idle with its message, and the stop event that follows still passes through processing back to idle |
| AudioRecorder.RemountAsWrittenRefusesStart | frontend/hooks/use-audio-recorder.ts:28-111 | as written, a second mount over the connected shared socket is not ready, and its start only sets the "Still connecting" error |
| AudioRecorder.RemountCorrectedStarts | frontend/hooks/use-audio-recorder.ts:28-111 | corrected, the second mount is ready and its start records |
| Relay.ExtractTranscript | backend/src/socket/socket.ts:44 | a missing channel or alternatives list is a parse error; the first alternative's text is found exactly when it exists |
| Relay.RelayedIff | backend/src/socket/socket.ts:44-47 | a payload is relayed exactly when its text has a non-whitespace character, and the text is sent untrimmed |
| Relay.Connection | backend/src/socket/socket.ts:17-22 | a new connection has one upstream stream, not yet open, and nothing sent either way |
| Relay.StepTranscript | backend/src/socket/socket.ts:42-51 | a transcript event changes only what the client has received |
| Relay.StepFacts | backend/src/socket/socket.ts:25-93 | per event, the flag follows Open/Close/Error, only an open chunk is forwarded, and only a disconnect ends the connection or calls finish |
| Relay.OneUpstreamStream | backend/src/socket/socket.ts:17-20 | over any trace the connection has exactly one upstream stream |
| Relay.FinishAtMostOnce | backend/src/socket/socket.ts:88-93 | finish is never called while connected and at most once in all |
| Relay.FinishIffOpenAtDisconnect | backend/src/socket/socket.ts:88-93 | after the disconnect, finish was called once if upstream was open at that moment and never otherwise |
| Relay.StaysConnected | backend/src/socket/socket.ts:36-50 | upstream errors and bad payloads never end the connection |
| Relay.NoFinishAfterDisconnect | backend/src/socket/socket.ts:88-93 | nothing after the disconnect calls finish again |
| Relay.DroppedBeforeOpen | backend/src/socket/socket.ts:54-56 | until an Open, no frame is forwarded and the flag stays false |
| Relay.ForwardedAfterOpen | backend/src/socket/socket.ts:54-64 | while open, every frame is forwarded unchanged and in order |
| Relay.ForwardedIsSubsequence | backend/src/socket/socket.ts:54-64 | over any trace, the forwarded frames are some of the received frames, in order, never invented |
| Relay.TranscriptsRelayedInOrder | backend/src/socket/socket.ts:42-47 | the client receives exactly the non-blank texts, in upstream order, and nothing else changes |
| Relay.MalformedPayloadIgnored | backend/src/socket/socket.ts:43-50 | a malformed payload leaves the session unchanged and the next good payload is still relayed |
| Relay.HelloEmptyWorld | backend/src/socket/socket.ts:42-47 | after Open, payloads "hello", "" and "world" give the client the ready signal and the two non-empty lines |
| Relay.RelaySession.constructor | backend/src/socket/socket.ts:17-22 | a new connection's state, with model nova-2-general and punctuation on |
| Relay.RelaySession.OnOpen | backend/src/socket/socket.ts:25-29 | follows Step: flag set, ready signal emitted |
| Relay.RelaySession.OnClose | backend/src/socket/socket.ts:31-34 | follows Step: flag cleared |
| Relay.RelaySession.OnError | backend/src/socket/socket.ts:36-40 | follows Step: flag cleared, error emitted |
| Relay.RelaySession.OnTranscript | backend/src/socket/socket.ts:42-51 | follows Step: non-blank text relayed, anything else swallowed |
| Relay.RelaySession.OnAudioChunk | backend/src/socket/socket.ts:54-64 | follows Step: forwarded only while open |
| Relay.RelaySession.OnResetRecording | backend/src/socket/socket.ts:81-85 | follows Step, which changes nothing |
| Relay.RelaySession.OnDisconnect | backend/src/socket/socket.ts:88-93 | follows Step: disconnected, finish called if open |
| Controls.ButtonsByStatus | frontend/components/recording-controls.tsx:30-91 | idle shows Start; recording shows Pause and Stop; paused shows Resume and Stop; processing shows the disabled indicator; completed shows nothing |
| Controls.OfferedMatchesTransitions | frontend/components/recording-controls.tsx:15-91 | an action is offered exactly when the lifecycle has a transition for it from the current status |
| Controls.ProcessingOffersNothing | frontend/components/recording-controls.tsx:86-91 | processing and completed offer no action |
| TranscriptFeed.SaveEnabled | frontend/components/transcript-feed.tsx:141 | Save is enabled exactly when idle with at least one line |
| TranscriptFeed.FullTextAppend | frontend/components/transcript-feed.tsx:66-71 | each appended line extends the saved text by one space and that line |
| TranscriptFeed.FullTextKeepsLines | frontend/components/transcript-feed.tsx:66-71 | lines without spaces can be split back out of the saved text, and its length is the lines' lengths plus the separators |
| TranscriptFeed.RequestFor | frontend/components/transcript-feed.tsx:60-71 | the request goes to the save URL with the bearer token, the title as typed and the joined lines |
| TranscriptFeed.TranscriptFeed.constructor | frontend/components/transcript-feed.tsx:29-31 | not saving, dialog closed, empty title |
| TranscriptFeed.TranscriptFeed.OpenSaveDialog | frontend/components/transcript-feed.tsx:40-43 | the title is cleared and the dialog opened |
| TranscriptFeed.TranscriptFeed.SetTitle | frontend/components/transcript-feed.tsx:157 | only the title changes |
| TranscriptFeed.TranscriptFeed.CloseDialog | frontend/components/transcript-feed.tsx:161 | only the dialog closes |
| TranscriptFeed.TranscriptFeed.HandleSaveAsWritten | frontend/components/transcript-feed.tsx:46-88 | as written: no lines does nothing; a blank title or no token only alerts; with a token one request is sent, and a successful one still ends in the error alert with the dialog open |
| TranscriptFeed.TranscriptFeed.HandleSave | frontend/components/transcript-feed.tsx:46-88 | the same guards; a successful save alerts once, clears the lines and closes the dialog; a failed one alerts the error; saving is false after every path that set it |
| TranscriptFeed.AsWrittenSuccessReportsError | frontend/components/transcript-feed.tsx:79-84 | a successful save as written shows both alerts and clears nothing |
| TranscriptFeed.CorrectedSuccessClearsTranscript | frontend/components/transcript-feed.tsx:79-81 | the corrected save shows one alert, clears the lines and closes the dialog |
| Sessions.Project | backend/src/routes/sessions.ts:14 | a list entry carries the row's id, title and creation time |
| Sessions.SummaryText | backend/src/routes/sessions.ts:66 | the generated text is the title, quoted, in the fixed frame |
| Sessions.SummaryTextInjective | backend/src/routes/sessions.ts:66 | different titles give different generated texts |
| Sessions.InsertMultiset | backend/src/routes/sessions.ts:13 | ordering adds each entry exactly once |
| Sessions.InsertSorted | backend/src/routes/sessions.ts:13 | ordering keeps the list newest first |
| Sessions.ListFromSorted | backend/src/routes/sessions.ts:11-15 | the listing is newest first |
| Sessions.ListFromEntries | backend/src/routes/sessions.ts:11-15 | the listing holds exactly the user's rows, projected, each once |
| Sessions.DistinctIds | backend/src/routes/sessions.ts:11-15 | no transcript appears twice in the listing |
| Sessions.Database.ListTranscripts | backend/src/routes/sessions.ts:8-21 | a failure is a 500 "Failed to fetch transcripts" and every call without one succeeds, with exactly the user's transcripts, newest first, projected, no duplicates |
| Sessions.Database.GetTranscript | backend/src/routes/sessions.ts:24-43 | a failure is a 500; a missing or foreign row is a 404 "Transcript not found"; an owned row comes with the stored summary exactly when one exists |
| Sessions.Database.GetOrCreateSummary | backend/src/routes/sessions.ts:46-81 | ownership checked first; an existing summary's text is returned with no row created; otherwise exactly one row is created with the user, the transcript and the generated text, which is returned; failures give a 500 and create nothing |
| Sessions.SummaryIsStable | backend/src/routes/sessions.ts:60-76 | two requests for an owned transcript return the same text and add at most one row |
| Sessions.SecondCallReturnsSameText | backend/src/routes/sessions.ts:60-76 | for a new transcript the second request returns the first one's text and the table holds one summary |

## Left out

- Browser media APIs are abstract. The capture request's answer and how creating and starting the recorder goes are parameters. The recorder is a state value. The platform stopping a recorder on its own (after an error, or when its tracks end) is the `OnRecorderError`/`OnRecorderEnded` input; a recorder whose `start` threw is held as an inactive recorder that never started. The mimeType probing at `frontend/hooks/use-audio-recorder.ts` lines 155-160 is not modelled.
- socket.io is not modelled. Real reconnection backoff and network delivery are the `TransportUp`/`TransportDown` inputs; the reconnection parameters are kept only as constants.
- The Deepgram SDK is not modelled. Upstream Open, Close, Error and Transcript are input events.
- Time is not modelled. The 500 ms timer is a discrete `OnTimerFires` step.
- The relay writes each raw chunk to disk (`backend/src/socket/socket.ts` lines 66-74). This best-effort file I/O is left out.
- Logging, `alert` display and the React rendering of the transcript and badges are left out. Alerts are returned as a list.
- Interleavings of async handlers are out of scope. For example, a stop event or timer from an earlier recording may fire after a quick restart. The pending-event counters let such events run, but they are not tied to a particular recorder.
- AudioRecorder.AudioRecorderHook.PauseRecording: does not model a `pause()` call that throws. The source catches that and changes nothing.
- AudioRecorder.AudioRecorderHook.ResumeRecording: does not model a `resume()` call that throws. The source catches that and changes nothing.
- AudioRecorder.AudioRecorderHook.StopRecording: does not model a `stop()` or track `stop()` that throws. The source's catch would set idle.
- AudioRecorder.AudioRecorderHook.StartRecording: a `stop()` that throws while a start clears an old recorder is not modelled. Only a refused capture, a failed recorder creation and a failed `start` take the failure path.
- `onTranscript`, `onProcessing` and `onCompleted` have no caller in this code base, and nothing calls `addTranscriptLine`. They are modelled as operations, not wired to the relay's transcript event.
- Authentication (`authroutes.ts`, `authMiddleware.ts`) is not part of this model. The authenticated user id is an input of each route.
- The transcript save route (`backend/src/routes/transcript.ts`) is not part of this model. `Sessions.Database.constructor` stands for a database already holding saved rows.
- Sessions.Database.ListTranscripts: a ghost function. The map-backed table gives no storage order, and the source leaves the order of equal creation times open, so the listing picks one order and states only newest-first.
- Sessions.Database.GetOrCreateSummary: the database's id generator is the `newId` parameter.
- The page components that call the session routes, the sign-up form, the audio-mode selector and the layout components are UI without rules and are not part of this model.

## Findings

| source | as written | input that shows it | evidently intended | confidence | as-written member | corrected member |
|---|---|---|---|---|---|---|
| frontend/components/transcript-feed.tsx:80 | `setTranscript("")` is taken from the store, which defines no such member (frontend/lib/store.ts:6-20), so the call throws after the success alert; the catch then alerts "Error saving transcript", the dialog stays open and the lines are kept | lines ["hello", "world"], title "Standup", token "tok", the save request succeeds | clear the transcript and close the dialog after the one success alert | high, not executed | TranscriptFeed.AsWrittenSuccessReportsError | TranscriptFeed.TranscriptFeed.HandleSave |
| frontend/hooks/use-audio-recorder.ts:36-73 | a mount whose own socket ref is empty registers its callbacks and waits for `connect`, even when the shared socket is already connected; the unmount cleanup (lines 80-97) leaves the socket connected, so a second mount does not see that event until the socket reconnects and stays not ready | mount, connect, unmount, mount again, then start | a shared socket that is already connected makes the new mount ready at once | medium, not executed | AudioRecorder.RemountAsWrittenRefusesStart | AudioRecorder.AudioRecorderHook.InitSocket |
