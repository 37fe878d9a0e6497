# Classroom signaling coordinator and session clock, in Dafny

This project models the logic of a browser classroom in which a teacher streams
camera and microphone to students over WebRTC, with a STOMP relay (over SockJS)
carrying the signaling messages.

- **Signaling coordinator** (`Signaling.dfy`, from `src/components/WebRTC.tsx`).
  One process-wide instance holds the current peer connection, the relay client,
  an `isConnecting` flag and the active room code.
  - `Coordinator.Setup` is `setupWebRTC`. It has a guard against duplicate and
    concurrent setups, it switches rooms, and it resets state on exceptions.
  - The connect-success and connect-failure callbacks, the subscription callback,
    `onicecandidate`, `ontrack` and the teacher's media callback are each a
    separate method that the environment may call.
  - `CreateOffer`, `HandleSignal` and `Close` are `createOffer`, `handleSignal`
    and `closeWebRTC`.
  - `RTCPeerConnection` and the STOMP client are small stand-in classes that
    record what the coordinator does to them.
  - Every STOMP `send` is appended to `Coordinator.outbox`.
  - `Valid()` is the coordinator's invariant: the current peer connection is
    never closed, the current client is never disconnected, and while a setup is
    in flight there is a room code, a peer connection and a client that has not
    yet connected. Every operation preserves it. `OnLocalMedia` relies on its
    first clause: `addTrack` throws on a closed connection, and the invariant
    shows that the current one is open.
  - A ghost multiset `mediaRequests` records the teacher-path `getUserMedia`
    requests that have not settled. Only a teacher setup adds one. The media
    callback (`OnLocalMedia`) needs one, so a coordinator set up as a student
    never adds tracks or creates an offer.
- **Session clock** (`Clock.dfy`). `formatTime` is modelled as pure functions:
  decimal rendering, `padStart(2, '0')`, `split(':')` and a parser back. Proved:
  - the decomposition into hours, minutes and seconds;
  - the field shape (`H:MM:SS` exactly from 3600 seconds on, otherwise `M:SS`);
  - the padding of each field;
  - the round trip `ParseClock(FormatTime(s)) == Some(s)`, and so injectivity.
  
  The teacher and student pages carry identical copies of `formatTime`, so one
  function models both. The two copies therefore agree on every input.
- **Classroom pages** (`TeacherClassroom.dfy`, `StudentClassroom.dfy`). Each
  page's React state is a class. Each handler, timer tick and browser callback
  is a method. This covers:
  - the clock tick;
  - the camera and microphone toggles;
  - the teacher's recording buffer;
  - `endSession` and `leaveClassroom`;
  - the mount effect and its cleanup.
- **Media** (`Media.dfy`). Stand-ins for `MediaStreamTrack`, `MediaStream` and the
  `<video>` element behind a ref. Also the `forEach(track => track.stop())` loop.
- **Scenarios** (`Scenarios.dfy`). Call sequences proved against the method
  contracts:
  - a second setup while connecting changes nothing;
  - switching rooms closes the old session;
  - a retry after a refused connection;
  - closing twice;
  - a full offer/answer exchange between a teacher and a student coordinator.

Nothing here is executed. The browser, the relay server and the network are
inputs to the methods. Offer and answer SDP, ICE candidates and media chunks are
opaque values passed in by the caller.

Behaviours the code does not have, and what it does instead:
- The code applies every offer and answer it receives. It does not ignore
  duplicate or late ones (`Coordinator.HandleSignal`).
- The code does not defer `closeWebRTC` while a setup is in flight.
- The code does not coalesce remote tracks: every `ontrack` replaces what the
  element shows (`PeerConnection.OnTrack`).
- After a refused connection the peer connection and the client are left in
  place. A retry then drops that peer connection without closing it
  (`SignalingScenarios.RetryAfterConnectFailure`).
- `setupWebRTC` returns nothing. "Already active" is a silent no-op.

## Model

`Clock.FormatTime` (src/components/TeacherClassroom.tsx:150-158), `Clock.Render`
(lines 154-157), `Clock.TwoDigits` and `Clock.PadStart` (`padStart(2, '0')`,
line 155) are the definitions of the clock. What they compute is stated by the
lemma rows that follow: `Clock.TwoDigitsField` for the padding,
`Clock.RenderFields` and `Clock.RenderRoundTrip` for the template literals, and
`Clock.FormatTimeFields`, `Clock.FormatTimeRoundTrip` and
`Clock.FormatTimeInjective` for `formatTime` itself.

| member | source | states |
|---|---|---|
| `Clock.Decompose` | src/components/StudentClassroom.tsx:112-115 | hours·3600 + minutes·60 + secs equals the input, with minutes < 60 and secs < 60; hours is positive exactly when the input is at least 3600 |
| `Clock.Decimal` | src/components/TeacherClassroom.tsx:155 | the `toString()` of a natural number is a non-empty digit string, has no leading zero, and is one character long exactly below 10 |
| `Clock.DecimalRoundTrip` | src/components/TeacherClassroom.tsx:155 | reading the decimal rendering of `n` back gives `n` |
| `Clock.TwoDigitsField` | src/components/TeacherClassroom.tsx:155 | below 100, `padStart(2, '0')` of the rendering is exactly two digits and reads back as the number |
| `Clock.RenderFields` | src/components/TeacherClassroom.tsx:154-157 | the `H:MM:SS` string built from hours, minutes and seconds splits on `:` into exactly the hour rendering and the two padded fields; the `M:SS` string into the minute rendering and the padded seconds |
| `Clock.RenderRoundTrip` | src/components/TeacherClassroom.tsx:154-157 | for minutes and seconds below 60, reading the built string back gives hours·3600 + minutes·60 + seconds |
| `Clock.FormatTimeFields` | src/components/TeacherClassroom.tsx:150-157 | `formatTime(s)` has three colon-separated fields exactly when s ≥ 3600 and two otherwise; the first field is the unpadded hours (long form) or minutes (short form); each later field is exactly two digits |
| `Clock.FormatTimeRoundTrip` | src/components/TeacherClassroom.tsx:150-158 | parsing the fields of `formatTime(s)` as decimals and recombining them gives `s` |
| `Clock.FormatTimeInjective` | src/components/StudentClassroom.tsx:112-120 | two session times with the same display are equal |
| `Media.OfKind` | src/components/TeacherClassroom.tsx:80 | `getVideoTracks()`/`getAudioTracks()`: exactly the tracks of that kind; the first one is the earliest of that kind in the stream |
| `Media.StopAll` | src/components/StudentClassroom.tsx:105-107 | after `forEach(track => track.stop())` every track is ended and no `enabled` flag changed |
| `Signaling.PeerConnection.constructor` | src/components/WebRTC.tsx:47-52 | a new peer connection with the one STUN server: open, no descriptions, no candidates, no senders, no handlers |
| `Signaling.PeerConnection.AddTracks` | src/components/WebRTC.tsx:83 | each track of the stream is added as a sender, in order |
| `Signaling.PeerConnection.OnTrack` | src/components/WebRTC.tsx:91-95 | with a handler and a mounted element, the element shows the event's first stream; each firing replaces the last; otherwise nothing changes |
| `Signaling.StompClient.constructor` | src/components/WebRTC.tsx:54-57 | a new client on the relay endpoint, bound to the room code, not connected, no subscriptions |
| `Signaling.Coordinator.constructor` | src/components/WebRTC.tsx:18-23 | the initial instance: no peer connection, no client, not connecting, no room code, nothing sent |
| `Signaling.Coordinator.Close` | src/components/WebRTC.tsx:164-178 | the old peer connection is closed and dropped, and nothing else about it changes; the client is disconnected and dropped only if it was connected (its subscriptions kept), otherwise kept untouched; flag and code cleared; pending media requests kept; from a torn-down state nothing changes (idempotent); invariant kept |
| `Signaling.Coordinator.Setup` | src/components/WebRTC.tsx:25-115 | when connecting (any code), or connected under the same code, nothing changes. When connected under another code, the old session is closed first, with nothing else about the old objects changed. A client dropped before it connected is left untouched. Then a fresh peer connection and client for `code` are created and the handlers installed by role; only a teacher setup with no exception leaves a media request pending. On a synchronous exception the flag and code are cleared and what was created is kept. Nothing is sent; invariant kept |
| `Signaling.Coordinator.Open` | src/components/WebRTC.tsx:43-114 | starting from no setup in flight: a fresh peer connection with the STUN server and a fresh client for `code`, with `ontrack` installed only for the student and `onicecandidate` bound to `code`; a media request for `code` is pending exactly for a teacher with no exception; on an exception the flag and code are cleared and what was already created stays; only the coordinator's own fields change |
| `Signaling.Coordinator.InstallHandlers` | src/components/WebRTC.tsx:78-113 | teacher: a media request for `code` is pending, or, when `navigator.mediaDevices` throws, flag and code are cleared and no handler is installed; student: `ontrack` writes to the element; otherwise `onicecandidate` is bound to `code`; nothing else about the peer connection changes |
| `Signaling.Coordinator.OnConnected` | src/components/WebRTC.tsx:59-70 | the connecting client is connected, the flag is cleared, the room code is kept, and the current client subscribes to `/topic/signal/{code}` |
| `Signaling.Coordinator.OnConnectFailed` | src/components/WebRTC.tsx:71-75 | the client is not connected, the flag is cleared and the room code becomes null |
| `Signaling.Coordinator.CreateOffer` | src/components/WebRTC.tsx:117-133 | without a peer connection or a connected client nothing changes; otherwise the offer becomes the local description and exactly one `offer` is sent to `/app/signal/{code}` |
| `Signaling.Coordinator.HandleSignal` | src/components/WebRTC.tsx:135-162 | without a peer connection or a connected client nothing changes. An offer sets remote then local description and sends exactly one `answer`. An answer only sets the remote description. A candidate is added only when present. Any other type does nothing |
| `Signaling.Coordinator.OnMessage` | src/components/WebRTC.tsx:62-69 | a body that fails to parse changes nothing; a parsed one is dispatched as `handleSignal` does: an offer sets remote and local descriptions and sends exactly one `answer` to `/app/signal/{code}`, an answer only sets the remote description, a present candidate is added, any other type changes nothing |
| `Signaling.Coordinator.OnIceCandidate` | src/components/WebRTC.tsx:98-109 | a local candidate is sent as `{type:'candidate'}` to the handler's room address exactly when it is non-null, a handler is installed and the client is connected; otherwise it is dropped |
| `Signaling.Coordinator.OnMediaRejected` | src/components/WebRTC.tsx:89 | a refused media request settles (it is only logged), and nothing else changes |
| `Signaling.Coordinator.OnLocalMedia` | src/components/WebRTC.tsx:79-89 | teacher path, only for a pending media request, which settles: the stream's tracks are added to the open current peer connection, the mounted element shows the stream, then `createOffer` sends exactly one offer when ready |
| `SignalingScenarios.SetupWhileConnecting` | src/components/WebRTC.tsx:31-35 | a second setup for any room while the first is connecting creates no second peer connection |
| `SignalingScenarios.SwitchRooms` | src/components/WebRTC.tsx:31-44 | a repeated setup for the connected room changes nothing; a setup for another room closes the old peer connection, disconnects the old client and starts fresh ones for the new room |
| `SignalingScenarios.RetryAfterConnectFailure` | src/components/WebRTC.tsx:51-76 | after a refused connection a retry for the same room proceeds with a fresh peer connection; the failed one is left unclosed |
| `SignalingScenarios.CloseTwice` | src/components/WebRTC.tsx:164-178 | a second `closeWebRTC` leaves the state the first one left |
| `SignalingScenarios.Handshake` | src/components/WebRTC.tsx:78-158 | teacher (offering) and student (answering) exchange exactly one offer and one answer, and both peer connections end with both descriptions applied |
| `TeacherClassroom.TeacherRoom.constructor` | src/components/TeacherClassroom.tsx:13-21 | first render: toggles on, not recording, no chunks, clock at 0 |
| `TeacherClassroom.TeacherRoom.Mount` | src/components/TeacherClassroom.tsx:23-38 | without a room code, navigates to `/` and leaves the coordinator untouched; otherwise sets up as teacher (no `ontrack` handler, a media request pending when no exception), starts the clock and registers the cleanup |
| `TeacherClassroom.TeacherRoom.OnLocalStream` | src/components/TeacherClassroom.tsx:49-58 | the stream becomes `localStream` and is shown when the element is mounted |
| `TeacherClassroom.TeacherRoom.OnSetupMedia` | src/components/WebRTC.tsx:81-87 | for a pending media request: `setLocalStream(stream)`, the stream's tracks become senders of the current peer connection, the mounted local video shows the stream, and exactly one offer is sent when ready |
| `TeacherClassroom.TeacherRoom.Tick` | src/components/TeacherClassroom.tsx:33-35 | each tick adds exactly one second |
| `TeacherClassroom.TeacherRoom.ToggleVideo` | src/components/TeacherClassroom.tsx:78-86 | no stream or no video track: nothing changes; otherwise the first video track's `enabled` flips and the indicator equals the new value |
| `TeacherClassroom.TeacherRoom.ToggleAudio` | src/components/TeacherClassroom.tsx:88-96 | as `ToggleVideo`, for the first audio track |
| `TeacherClassroom.TeacherRoom.StartRecording` | src/components/TeacherClassroom.tsx:98-106 | no stream: nothing changes; otherwise a fresh recorder on the stream is recording and the page shows it |
| `TeacherClassroom.TeacherRoom.OnDataAvailable` | src/components/TeacherClassroom.tsx:101 | each data event appends its chunk at the end |
| `TeacherClassroom.TeacherRoom.StopRecording` | src/components/TeacherClassroom.tsx:108-111 | the recorder, if any, stops; the page shows not recording |
| `TeacherClassroom.TeacherRoom.UploadRecording` | src/components/TeacherClassroom.tsx:113-140 | the upload carries every buffered chunk in order; the buffer is empty afterwards whether or not the upload and the save succeeded |
| `TeacherClassroom.TeacherRoom.EndSession` | src/components/TeacherClassroom.tsx:142-148 | every local track is stopped, the peer connection is closed, a connected client is disconnected, the coordinator is torn down, and the page navigates to `/` |
| `TeacherClassroom.TeacherRoom.Unmount` | src/components/TeacherClassroom.tsx:39-46 | as written: the clock stops, the tracks of the stream captured at mount are stopped, the peer connection is closed, a connected client is disconnected, and the coordinator is torn down |
| `TeacherClassroom.TeacherRoom.UnmountCurrent` | src/components/TeacherClassroom.tsx:39-46 | as intended: the tracks of the page's current stream are stopped; the peer connection is closed, a connected client is disconnected and the coordinator torn down |
| `TeacherClassroom.ToggleVideoTwice` | src/components/TeacherClassroom.tsx:78-86 | toggling twice restores the track's flag, and the indicator equals it |
| `TeacherClassroom.RecordAndUpload` | src/components/TeacherClassroom.tsx:98-140 | chunks delivered while recording are uploaded in delivery order, and the buffer is then empty |
| `TeacherClassroom.StaleCleanupLeavesCameraOn` | src/components/TeacherClassroom.tsx:23-46 | mount, then a camera stream arrives, then unmount: the camera's tracks are still live |
| `TeacherClassroom.CurrentCleanupStopsCamera` | src/components/TeacherClassroom.tsx:39-46 | the same sequence with the intended cleanup stops every camera track |
| `StudentClassroom.StudentRoom.constructor` | src/components/StudentClassroom.tsx:13-18 | first render: toggles on, clock at 0 |
| `StudentClassroom.StudentRoom.Mount` | src/components/StudentClassroom.tsx:20-36 | without a room code, navigates to `/`; otherwise sets up as student (the `ontrack` handler writes to the local video, no media request for the peer connection), starts the clock and registers the cleanup |
| `StudentClassroom.StudentRoom.OnJoinFailed` | src/components/StudentClassroom.tsx:54-58 | a failed attendance request navigates to `/` |
| `StudentClassroom.StudentRoom.OnLocalStream` | src/components/StudentClassroom.tsx:62-72 | the stream becomes `localStream` and is shown when the element is mounted |
| `StudentClassroom.StudentRoom.Tick` | src/components/StudentClassroom.tsx:31-33 | each tick adds exactly one second |
| `StudentClassroom.StudentRoom.ToggleVideo` | src/components/StudentClassroom.tsx:88-94 | no stream: nothing changes; otherwise the first video track (required to exist) flips and the indicator mirrors it |
| `StudentClassroom.StudentRoom.ToggleAudio` | src/components/StudentClassroom.tsx:96-102 | as `ToggleVideo`, for the first audio track |
| `StudentClassroom.StudentRoom.Leave` | src/components/StudentClassroom.tsx:104-110 | every local track is stopped, the peer connection is closed, a connected client is disconnected, the coordinator is torn down, and the page navigates to `/dashboard` |
| `StudentClassroom.StudentRoom.Unmount` | src/components/StudentClassroom.tsx:37-44 | as written: the tracks of the stream captured at mount are stopped, the peer connection is closed, a connected client is disconnected, and the coordinator is torn down |
| `StudentClassroom.StudentRoom.UnmountCurrent` | src/components/StudentClassroom.tsx:37-44 | as intended: the tracks of the page's current stream are stopped; the peer connection is closed, a connected client is disconnected and the coordinator torn down |
| `StudentClassroom.ToggleAudioTwice` | src/components/StudentClassroom.tsx:96-102 | toggling twice restores the track's flag, and the indicator equals it |
| `StudentClassroom.StaleCleanupLeavesCameraOn` | src/components/StudentClassroom.tsx:20-44 | mount, then a camera stream arrives, then unmount: the camera's tracks are still live |
| `StudentClassroom.CurrentCleanupStopsCamera` | src/components/StudentClassroom.tsx:37-44 | the same sequence with the intended cleanup stops every camera track |

## Left out

- JSX rendering and styling, the layout, routing, entry point and build configuration, the dashboard and the join form, and the declarations-only types file. They hold no logic the core depends on.
- Network requests are not modelled: attendee polling, the attendance POST, the recording upload and the save of its URL. Their outcomes are method parameters (`OnJoinFailed`, `UploadRecording`'s `uploadOk`/`saveOk`). The uploaded file's name uses `Date.now()` and is not modelled.
- Internals of `RTCPeerConnection`, `getUserMedia`, `MediaRecorder`, SockJS and STOMP are not modelled. SDP and candidate payloads are opaque, and the offer and answer SDP are parameters.
- Signaling.Coordinator.HandleSignal: assumes the browser accepts each `setRemoteDescription`/`createAnswer`/`setLocalDescription`/`addIceCandidate`. The source catches and logs a rejection, and state set by earlier steps stays; these partial-failure paths are not modelled.
- Signaling.Coordinator.CreateOffer: assumes `createOffer` and `setLocalDescription` succeed. A rejection is only logged in the source.
- Signaling.Coordinator.OnLocalMedia: assumes `addTrack` does not throw for a track added twice; the browser would throw there and the offer would then not be created. The closed-connection case cannot arise, by `Valid()`.
- Signaling.Coordinator.OnConnected: when a superseded client's callback fires, the model records the subscription on the current client. The library would throw there if that client's socket is not yet open.
- Real interleaving of promises, awaits, timers and callbacks is not modelled. Each callback is a method that completes before the next one starts.
- `console` logging and `alert` are not modelled.
- Clock.FormatTime: treats the session time as an unbounded natural number. JavaScript numbers lose integer precision beyond 2^53 seconds, which a running page cannot reach.
- Which media requests fail is an input. A failed `getUserMedia` means `OnLocalStream` is never called, and on the teacher path `OnMediaRejected` is called instead of `OnSetupMedia`.

## Findings

| source | as written | input that shows it | evidently intended | confidence | as-written member | corrected member |
|---|---|---|---|---|---|---|
| src/components/TeacherClassroom.tsx:39-46 | the effect cleanup stops the tracks of `localStream` as captured when the effect ran, which on mount is the initial `null` | mount with a room code; the camera stream arrives; the page unmounts without "End Session" | stop the tracks of the stream the page holds when it unmounts | high (not executed) | `TeacherClassroom.StaleCleanupLeavesCameraOn` | `TeacherClassroom.CurrentCleanupStopsCamera` |
| src/components/StudentClassroom.tsx:37-44 | the same stale capture in the student page's cleanup | mount with a room code; the camera stream arrives; the page unmounts without "Leave" | stop the tracks of the stream the page holds when it unmounts | high (not executed) | `StudentClassroom.StaleCleanupLeavesCameraOn` | `StudentClassroom.CurrentCleanupStopsCamera` |
