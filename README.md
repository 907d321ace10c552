# Screen-share control plane and frame buffering, in Dafny

This project models the parts of the screen-sharing servers that decide
things rather than move pixels:

- **Session registry and command handlers** of `ScreenShareServer`
  (unified_server.py): users in dict insertion order, the presenter id, the
  per-user presenter flag, the join/welcome step, the command dispatch, the
  presenter-only start/stop/settings commands, the unconditional presenter
  hand-over, chat filtering, disconnect with hand-over to the
  earliest-inserted remaining user, and the broadcast fan-outs. The
  registry invariant (ids unique, the presenter is connected, the flag
  holds exactly for the presenter, somebody presents whenever anybody is
  connected) is `Session.Inv`. Each handler, taken as one atomic step,
  keeps it. The disconnect handler awaits the capture task in the middle of
  its hand-over, and a request for the presenter role that runs during that
  await breaks the invariant (see "## Findings").
- **Capture settings** of unified_server.py's `ScreenCapture`: the monitor
  list, bounds-checked monitor selection, the truthy-only settings merge and
  the running flag.
- **Capture loop bookkeeping** of screen_capture.py's `ScreenCapture`: the
  five-frame drop-oldest queue, the overwrite slot, the one-second frame
  counter window, the pacing rule, and the whole loop as a sequence of
  iterations.
- **`ScreenCaptureSimple`** of simple_server.py: the bitrate to JPEG
  quality clamp, the truthy-only settings update, the flags and the zero
  cases of `get_fps`.
- **Signalling bookkeeping** of webrtc_server.py: the presentation
  timestamp counter and black-frame fallback of `recv`, the message
  dispatch, the socket and peer-connection sets, the failure-pruning
  broadcast and cleanup.

Modelling conventions:

- Each asyncio handler is one atomic step, although three of them await
  something other than a send. `websocket_handler` awaits `ws.prepare`
  (unified_server.py:330) before it touches the registry, which changes
  nothing the model sees. `_stop_presenting` awaits `stop_capture()`
  (unified_server.py:417) and then builds its broadcast from
  `self.users[user_id]` (unified_server.py:421). `_user_disconnected`
  removes the user, awaits `stop_capture()` (unified_server.py:486), and
  only then hands the presenter role over (unified_server.py:487-493).
  Other handlers can run during those two `stop_capture()` awaits. The
  disconnect is also modelled as two steps, `Session.DisconnectBegin` and
  `Session.DisconnectFinish`, to show what another handler can do between
  them. The other handlers' remaining awaits are sends.
- A network send is an append to `outbox`, the sequence of messages that
  were delivered. Which sends raise is an input to each step: the set
  `failed` of recipients whose socket raises.
- A frame is an opaque value. The result of grabbing, converting and
  resizing is an input to a loop iteration, `None` when one of those raised.
- Clocks are `real` inputs, one reading per loop iteration.
- Python truthiness is explicit: a number is falsy when absent or 0, a
  list or string when absent or empty.
- Python's `int(a / 100)` truncates toward zero, and `SimpleCapture.TruncDiv`
  writes that out.

Facts about the code that the contracts rely on:

- A failed send is logged and skipped, and the user stays registered
  (unified_server.py:504-510, 518-522, 527-532).
- Chat messages are broadcast and not stored; there is no chat history
  (unified_server.py:445-457).
- A `stop_presenting` or `settings_update` from anyone but the presenter is
  ignored without an `error` reply (unified_server.py:416, 461-462). Only
  `start_presenting` answers a non-presenter with an error
  (unified_server.py:400-405).
- After the presenter disconnects, the new presenter is the first remaining
  key of the `users` dict, which is the earliest-connected user
  (unified_server.py:489-493).

Modules: `Wrappers` (Option), `PyText` (`str.isspace`, `str.strip`,
`str(n)`), `UnifiedCapture`, `Session`, `CaptureLoop`, `SimpleCapture` and
`Signalling`.

## Model

| member | source | states |
|---|---|---|
| PyText.IsSpace | unified_server.py:447 | the characters `str.strip()` removes: the ASCII whitespace controls, the separators U+001C..U+001F and the Unicode space characters |
| PyText.NatToString | unified_server.py:73 | `str(n)`: a non-empty string of decimal digits without a leading zero whose decimal value is `n` |
| PyText.Strip | unified_server.py:447-453 | the stripped message is a slice of the message that starts and ends with a non-space character, and everything cut off on either side is whitespace |
| PyText.StripEmptyIffBlank | unified_server.py:447 | `message.strip()` is empty exactly when the message is all whitespace, the empty message included |
| UnifiedCapture.MonitorName | unified_server.py:73 | the name is "Monitor " followed by the decimal digits of i+1 |
| UnifiedCapture.GetMonitors | unified_server.py:67-80 | with mss: one entry per detected monitor, id i, name "Monitor i+1", that monitor's width and height; without mss: exactly the 1920x1080 primary test monitor |
| UnifiedCapture.GetMonitorsPrimaryUnique | unified_server.py:67-80 | monitor ids are distinct, monitor names are distinct, an entry is primary exactly when its id is 0, and the first entry is primary |
| UnifiedCapture.Merge | unified_server.py:247-262 | each of fps, resolution and quality takes the payload value exactly when that value is truthy, else keeps the old one; the monitor changes exactly when the payload index is within the known monitors |
| UnifiedCapture.MergeIdempotent | unified_server.py:247-262 | applying an update twice equals applying it once, and an update whose keys are all absent or falsy changes nothing |
| UnifiedCapture.ScreenCapture.constructor | unified_server.py:45-65 | defaults 60 fps, 1280x720, quality 85, monitor 0, not running; monitors are the detected ones with mss and none without |
| UnifiedCapture.ScreenCapture.SelectMonitor | unified_server.py:82-88 | returns true exactly when 0 <= id < number of monitors, and only then changes the selected monitor |
| UnifiedCapture.ScreenCapture.UpdateSettings | unified_server.py:247-262 | the new settings are `Merge` of the old settings and the payload; the running flag is untouched |
| UnifiedCapture.ScreenCapture.StartCapture | unified_server.py:90-97 | the loop is running afterwards; when it already was, nothing changes |
| UnifiedCapture.ScreenCapture.StopCapture | unified_server.py:99-108 | the loop is not running afterwards |
| Session.ToDict | unified_server.py:274-280 | `User.to_dict()`: the user's id, name, connection time and presenter flag |
| Session.NewUser | unified_server.py:267-272 | a user built without a name: the default name, the connection time given, not presenter |
| Session.DefaultName | unified_server.py:267-270 | the default name is "User " followed by the first eight characters of the id, or the whole id when shorter |
| Session.Inv | unified_server.py:290-291 | the registry invariant: ids unique, the presenter id names a connected user, the flag holds exactly for the presenter, somebody presents whenever anybody is connected |
| Session.JoinState | unified_server.py:332-339 | the registry after a join: the newcomer appended last, presenter exactly when `presenter_id` was falsy |
| Session.RequestPresenterState | unified_server.py:424-437 | the registry after a presenter request: unknown id, no change; otherwise the holder's flag cleared if the holder is still a key, the requester flagged and made presenter |
| Session.DisconnectState | unified_server.py:476-493 | the registry after a disconnect with the hand-over done atomically: unknown id, no change; otherwise the user removed and, if it presented, the role given to the first remaining key or to nobody |
| Session.ExactlyOnePresenter | unified_server.py:290-291 | under the invariant no two users carry the presenter flag, and somebody carries it exactly when somebody is connected |
| Session.JoinPreservesInv | unified_server.py:332-339 | admitting a user with a new id keeps the registry invariant |
| Session.JoinGrantsOnlyIfVacant | unified_server.py:334-339 | the newcomer is appended last and is presenter exactly when nobody presented; earlier users and an existing presenter are untouched |
| Session.RequestPresenterTransfers | unified_server.py:424-437 | from an unknown id nothing changes; from a connected user the requester becomes presenter and the only flagged user, nobody else changes otherwise, and the invariant holds |
| Session.DisconnectOther | unified_server.py:476-486 | a non-presenter leaving removes exactly that user, keeps the others in order and keeps the presenter |
| Session.DisconnectLast | unified_server.py:484-487 | the last user leaving leaves nobody and no presenter |
| Session.DisconnectPresenter | unified_server.py:484-493 | the presenter leaving while others remain gives the role to the earliest-inserted remaining user and keeps the invariant |
| Session.DisconnectReassigns | unified_server.py:476-493 | unknown id: no change; otherwise exactly that user leaves, order is kept, the invariant holds, a non-presenter leaving keeps the presenter, the presenter leaving hands the role to the earliest-inserted remaining user or to nobody |
| Session.DisconnectBegin | unified_server.py:477-486 | the part of `_user_disconnected` before its await: the user is no longer a key, `presenter_id` is unchanged, one user fewer |
| Session.DisconnectFinish | unified_server.py:487-493 | the part after the await: the first remaining key becomes presenter and is flagged, every other entry is left as it is, nobody presents when nobody remains |
| Session.DisconnectStepsAgree | unified_server.py:476-493 | with nothing run during the await, the two parts give the atomic hand-over `DisconnectState` |
| Session.DisconnectRaceBreaksInv | unified_server.py:424-437 | a presenter request by anyone but the heir, run during the disconnect's await, leaves two users flagged: the invariant held before and fails after |
| Session.Deliveries | unified_server.py:512-532 | the envelopes of one fan-out over the users in dict order, skipping the given ids; at most one per user |
| Session.Unicast | unified_server.py:504-510 | `_send_to_user`: at most one delivery, to the recipient exactly when it is connected and its send does not raise |
| Session.DeliveriesExact | unified_server.py:512-532 | a fan-out delivers the message to every connected user outside the skipped ids, to nobody else and to nobody twice |
| Session.ScreenShareServer.constructor | unified_server.py:285-292 | nobody connected, no presenter, nothing sent, capture not running |
| Session.ScreenShareServer.SendToUser | unified_server.py:504-510 | one delivery to a connected recipient whose send does not raise, otherwise none |
| Session.ScreenShareServer.Broadcast | unified_server.py:512-522 | one delivery per connected user in dict order, skipping the sends that raise, without stopping or removing anyone |
| Session.ScreenShareServer.BroadcastExcept | unified_server.py:524-532 | as the broadcast, additionally skipping the excepted user |
| Session.ScreenShareServer.Join | unified_server.py:332-357 | the registry becomes the join state and keeps the invariant; the newcomer gets `welcome` with its presenter flag and all users, the others get `user_joined` with the new total |
| Session.ScreenShareServer.StartPresenting | unified_server.py:394-412 | unknown sender: nothing; other non-presenter: one `error` to the sender only and capture untouched; presenter: capture running and `presentation_started` to everybody; the registry never changes |
| Session.ScreenShareServer.StopPresenting | unified_server.py:414-422 | from anyone but the presenter nothing happens and no error is sent; from the presenter capture stops and `presentation_stopped` goes to everybody |
| Session.ScreenShareServer.RequestPresenter | unified_server.py:424-443 | the registry becomes the hand-over state and keeps the invariant; a connected requester's hand-over is announced with `presenter_changed` to everybody, an unknown one sends nothing |
| Session.ScreenShareServer.HandleChat | unified_server.py:445-457 | unknown sender or all-whitespace text: nothing sent; otherwise one `chat_message` with the stripped text to every connected user |
| Session.ScreenShareServer.HandleSettingsUpdate | unified_server.py:459-474 | from anyone but the presenter nothing changes and nothing is sent; from the presenter the capture settings become the merge and `settings_updated` carries the payload to everybody |
| Session.ScreenShareServer.RemoveUser | unified_server.py:476-493 | the registry becomes the disconnect state and keeps the invariant; the capture stops exactly when the presenter left |
| Session.ScreenShareServer.UserDisconnected | unified_server.py:476-502 | unknown id: nothing; otherwise the disconnect state, capture stopped if the presenter left, and `user_left` with the new total and new presenter to the remaining users |
| Session.ScreenShareServer.HandleMessage | unified_server.py:377-392 | only `request_presenter` changes the registry, every handler keeps the invariant, and a missing or unknown type changes nothing and sends nothing |
| CaptureLoop.Newest | screen_capture.py:76-85 | the last `n` elements of a sequence, all of them when there are at most `n`; the queue never holds more than five frames |
| CaptureLoop.Grabbed | screen_capture.py:53-89 | the frames of the successful iterations in order |
| CaptureLoop.GrabbedExact | screen_capture.py:53-89 | at most one frame per iteration; a frame is grabbed exactly when some iteration grabbed it, and nothing is grabbed exactly when every grab failed |
| CaptureLoop.Latest | screen_capture.py:71 | the frame in the overwrite slot after some iterations: the last one grabbed, or the initial one when every grab failed |
| CaptureLoop.Offer | screen_capture.py:76-85 | the queue after a put is the newest five frames of the queue followed by the frame: a non-full queue gains the frame at its tail, a full one loses exactly its oldest frame, order kept |
| CaptureLoop.NewestThenOffer | screen_capture.py:76-85 | keeping the newest five frames and then putting one more equals keeping the newest five of the longer history |
| CaptureLoop.LoopStep | screen_capture.py:53-89 | one more iteration puts its frame into the queue if it grabbed one and leaves the queue alone otherwise |
| CaptureLoop.LatestStep | screen_capture.py:71 | after one more iteration the slot holds its frame if it grabbed one, else what it held |
| CaptureLoop.Pace | screen_capture.py:91-99 | the next frame time is the old one plus one interval when that is still ahead of now, otherwise now; it is never behind now |
| CaptureLoop.ScreenCapture.constructor | screen_capture.py:16-30 | the given rate and resolution, interval 1/fps, not running, empty queue, no frame, count 0, window opened now |
| CaptureLoop.ScreenCapture.StartCapture | screen_capture.py:32-40 | the loop is running afterwards; when it already was, nothing changes |
| CaptureLoop.ScreenCapture.StopCapture | screen_capture.py:42-47 | the loop is not running afterwards |
| CaptureLoop.ScreenCapture.GetLatestFrame | screen_capture.py:111-113 | `get_latest_frame`: the frame in the slot, read without removing it; after a loop run it is `Latest` of the iterations |
| CaptureLoop.ScreenCapture.GetFrameFromQueue | screen_capture.py:115-120 | an empty queue gives `None` and stays empty; otherwise the head is returned and removed |
| CaptureLoop.ScreenCapture.PutFrame | screen_capture.py:76-85 | the queue becomes `Offer` of the old queue and the frame, and never holds more than five frames |
| CaptureLoop.ScreenCapture.UpdateFps | screen_capture.py:101-109 | the frame is counted; once a second has passed since the window opened the count restarts at 0 and a new window opens now |
| CaptureLoop.ScreenCapture.Tick | screen_capture.py:53-99 | a failed grab changes nothing, the schedule included; a success overwrites the slot, queues the frame, updates the counter window and paces the schedule |
| CaptureLoop.ScreenCapture.RunCaptureLoop | screen_capture.py:49-99 | when running, the queue ends as the newest five of everything it held and everything grabbed, and the slot holds the last frame grabbed; when not running nothing changes |
| SimpleCapture.TruncDiv | simple_server.py:94 | Python's `int(a / d)` rounds toward zero: for non-negative `a` the result times `d` is at most `a` and within `d` of it; for negative `a` it is at least `a` and within `d` of it |
| SimpleCapture.JpegQuality | simple_server.py:94 | the quality is within [50, 95], equals `int(bitrate / 100)` when that lies in the range, and is clamped to 50 or 95 outside it |
| SimpleCapture.JpegQualityMonotone | simple_server.py:94 | a higher bitrate never gives a lower quality |
| SimpleCapture.JpegQualityExamples | simple_server.py:94 | 5000 gives 50, 8000 gives 80, and out-of-range bitrates are clamped |
| SimpleCapture.Merge | simple_server.py:53-63 | a truthy argument overwrites exactly its own field; an absent or falsy one leaves it unchanged |
| SimpleCapture.MergeIdempotent | simple_server.py:53-63 | applying the same arguments twice equals applying them once, and the result depends on the old settings only in the fields the arguments leave alone |
| SimpleCapture.ScreenCaptureSimple.constructor | simple_server.py:35-43 | the given rate, resolution and bitrate, quality mode "high", not running, no frames, started now |
| SimpleCapture.ScreenCaptureSimple.StartCapture | simple_server.py:45-51 | the loop is running afterwards, with no already-running guard |
| SimpleCapture.ScreenCaptureSimple.StopCapture | simple_server.py:65-70 | the loop is not running afterwards |
| SimpleCapture.ScreenCaptureSimple.UpdateSettings | simple_server.py:53-63 | the new settings are `Merge` of the old ones and the arguments |
| SimpleCapture.ScreenCaptureSimple.CaptureTick | simple_server.py:94-114 | a captured frame is encoded at `JpegQuality(bitrate)` and counted once |
| SimpleCapture.ScreenCaptureSimple.GetFps | simple_server.py:165-170 | 0 before the first frame and when no time has elapsed, never negative |
| Signalling.BlackFrame | webrtc_server.py:29-32 | the fallback frame is 720 rows by 1280 columns of three zero bytes |
| Signalling.ScreenStreamTrack.constructor | webrtc_server.py:20-24 | the counter starts at 0 |
| Signalling.ScreenStreamTrack.Recv | webrtc_server.py:26-44 | the k-th frame returned carries pts 16666·k, so pts strictly increase; its picture is the latest captured frame, or the black frame when there is none |
| Signalling.RouteOf | webrtc_server.py:115-126 | exactly `offer`, `ice-candidate` and `stats-request` reach their handlers; every other type, or none, reaches nothing |
| Signalling.Delivered | webrtc_server.py:208-219 | the envelopes of one broadcast in the order the sockets were attempted, one per socket whose send did not raise |
| Signalling.OfferedPeers | webrtc_server.py:128-135 | the peer connections the offers among some received frames create |
| Signalling.OfferedPeersExact | webrtc_server.py:128-135 | a peer connection is created exactly when some offer frame carries it |
| Signalling.OfferIsNew | webrtc_server.py:132-134 | with distinct peer connections per offer, an offer's connection is not among those the earlier offers created |
| Signalling.Reply | webrtc_server.py:115-199 | what `handle_message` sends back for one decoded message: the answer or the error text for an offer, the resolution and connection count for a stats request, nothing otherwise or when the send raises |
| Signalling.ReplyShape | webrtc_server.py:115-199 | at most one reply per message, addressed to the socket it came from, and one exactly for an offer or a stats request whose send does not raise |
| Signalling.FrameReply | webrtc_server.py:97-106 | a text frame with valid JSON gets `Reply`; invalid JSON, an error frame or another frame gets nothing |
| Signalling.Replies | webrtc_server.py:96-106 | everything sent back while the frames are handled in order, each frame seeing the peer connections the earlier offers added |
| Signalling.RepliesToOwnSocket | webrtc_server.py:96-106 | at most one reply per frame, every reply goes to the socket the frames came from, and none when its sends raise |
| Signalling.DeliveredExact | webrtc_server.py:208-219 | a broadcast delivers the payload to exactly the attempted sockets whose send did not raise |
| Signalling.WebRtcServer.constructor | webrtc_server.py:49-55 | no peer connections, no sockets, nothing sent |
| Signalling.WebRtcServer.Open | webrtc_server.py:88-93 | a connecting socket joins the set |
| Signalling.WebRtcServer.Close | webrtc_server.py:109-111 | the socket leaves the set |
| Signalling.WebRtcServer.HandleFrame | webrtc_server.py:97-103 | a text frame with valid JSON is handled by `handle_message`, anything else changes nothing; the connections grow by the offer's and the messages sent are `FrameReply` |
| Signalling.WebRtcServer.ReceiveLoop | webrtc_server.py:96-108 | the frames are handled in order until they run out, an error frame arrives or receiving raises; the peer connections grow by exactly those the handled offers create and the messages sent are `Replies` of the handled frames |
| Signalling.WebRtcServer.Serve | webrtc_server.py:88-111 | the socket is in the set while its frames are handled and leaves it on every exit: the frames running out, an error frame, or receiving raising; the frames before the first error frame and before the raise are handled, the peer connections grow by exactly those their offers create, and the messages sent are `Replies` of the handled frames |
| Signalling.WebRtcServer.SendMessage | webrtc_server.py:201-206 | one delivery unless the send raises, and nothing else changes |
| Signalling.WebRtcServer.HandleMessage | webrtc_server.py:115-199 | the peer connections grow by the new one exactly for an offer; an offer registers the peer connection and replies with the answer or the error text; a stats request replies with the resolution and connection count; an ICE candidate or any other type changes nothing and sends nothing; in every case the messages sent are `Reply` |
| Signalling.WebRtcServer.PeerClosed | webrtc_server.py:142-145 | a closed peer connection leaves the set |
| Signalling.WebRtcServer.BroadcastMessage | webrtc_server.py:208-219 | every socket of the set before the call is attempted exactly once; afterwards exactly the sockets whose send raised are gone, and the deliveries are those of `Delivered` |
| Signalling.WebRtcServer.Cleanup | webrtc_server.py:221-229 | both the peer-connection set and the socket set are empty afterwards |

## Left out

- Pixel work is not modelled: screen grabs, colour conversion, resizing, JPEG and base64 encoding, and the test-pattern drawing are foreign library calls. A frame is an opaque value.
- Threads, asyncio tasks, task cancellation, joins and sleeping are not modelled. Start and stop only change the running flag, and a capture loop is given the iterations that happen before another thread clears the flag.
- The floating-point `actual_fps` quotients, `get_stats` and `uptime` are not modelled; only the integer counters and windows are. `get_resolution` is not a member of its own: the `stats` reply reads the `targetResolution` field, which is what it returns.
- Floating-point rounding is not modelled: clock values and fps quotients are exact reals.
- HTTP routes, CORS, the embedded HTML pages, `StreamingHandler`, main.py and the server start-up and shutdown are not part of this model. The `/settings` and `/monitors` HTTP endpoints are out too.
- JSON decoding and the JSON text of messages are not modelled. A message is a datatype of its fields, and a payload field of the wrong Python type, which would raise, is not represented.
- aiortc's SDP and ICE work is not modelled. An offer is given its outcome, an answer or the text of the raised exception.
- The `icecandidate` callback that forwards local ICE candidates is not modelled.
- A failure while constructing the peer connection itself is not modelled; the connection is always registered.
- unified_server.py's `_capture_loop`, `_update_fps` and `_generate_test_frame` are not modelled; they are foreign pixel work around a frame counter that is not part of this model. That loop differs from screen_capture.py's: `_update_fps` never resets `frame_count`, pacing sleeps `max(0, interval - elapsed)` with no schedule, and a capture error puts a test frame into `current_frame`.
- Session.ScreenShareServer.Join: requires the new id not to be a key yet. The source draws it from `uuid4`, and randomness is not modelled.
- Session.ScreenShareServer.UserDisconnected: treats the await of `stop_capture()` at unified_server.py:486 as atomic and uses the hand-over `DisconnectState`. The interleaving that await allows is modelled by `Session.DisconnectBegin`, `Session.DisconnectFinish` and `Session.DisconnectRaceBreaksInv`.
- Session.ScreenShareServer.StopPresenting: treats the await of `stop_capture()` at unified_server.py:417 as atomic. If another user requests the presenter role and starts presenting during it, the source broadcasts `presentation_stopped` with the old presenter's current dict while a new capture runs; the model's step stops the capture and sends the dict as it was before the step.
- Session.ScreenShareServer.HandleMessage: states only the registry effect and the unknown-type case. The effect of each known type is the contract of the handler it calls.
- CaptureLoop.ScreenCapture.Tick: uses one clock reading per iteration. The source reads the clock separately for the fps window and for pacing.
- CaptureLoop.ScreenCapture.RunCaptureLoop: does not state the frame counter, its window start or the pacing schedule after the run. In screen_capture.py they feed only `actual_fps`, which is not modelled; each step's effect on them is `Tick`'s contract.
- CaptureLoop.ScreenCapture.constructor: requires a non-zero rate, because `1.0 / target_fps` raises on 0.
- SimpleCapture.ScreenCaptureSimple.GetFps: does not state the quotient returned when time has elapsed, because it is a floating-point division.
- Signalling.WebRtcServer.HandleMessage: the `stats` reply carries only the resolution and the connection count. Its fps and timestamp fields are floating-point values read from the clock.
- Signalling.WebRtcServer.Serve: an exception raised inside `handle_message` part-way through a message is not modelled; receiving raises only between frames. `ws.prepare` is not modelled.
- Signalling.WebRtcServer.BroadcastMessage: the order of attempts is that of set iteration, which Python leaves unspecified. The order is a ghost result of the method.
- Concurrency between handlers at sends is not modelled: a socket that connects or closes while a broadcast awaits a send is not represented, and neither is a message built after a send from state another handler changed meanwhile.
- User objects are values in the registry, so the aliasing between the `users` dict and a `User` held elsewhere is not modelled.

## Findings

| source | as written | input that shows it | evidently intended | confidence | as-written member | corrected member |
|---|---|---|---|---|---|---|
| unified_server.py:482-493 | the presenter is removed from `users`, then `stop_capture()` is awaited, then the first remaining key is flagged and made presenter without clearing any other flag | P presents with the capture task started, A and B are connected in that order; P disconnects, and B's `request_presenter` runs during the await: `users.get(P)` is None so nothing is cleared, B is flagged, then the resumed hand-over flags A and makes A presenter, and both A and B carry the flag | exactly one connected user carries the presenter flag, and it is the one `presenter_id` names | not executed; the race needs the capture task to yield during its cancellation | Session.DisconnectRaceBreaksInv | Session.DisconnectReassigns |
