# Audio capture and streaming core, modelled in Dafny

A desktop application captures display/system audio in a hidden background
window, converts it to 16-bit PCM inside an audio worklet and streams it to a
server over a reconnecting WebSocket; the main process relays commands and
status between the control window, the background window and the socket.
This project models and verifies the four pieces of that pipeline that carry
logic:

- `PcmConverter` (`pcm_converter.dfy`): the worklet's per-sample conversion
  (clamp to [-1, 1], scale by 0x8000 or 0x7FFF, truncating Int16Array store)
  and `process`, which converts channel 0 into a fresh Int16Array in a loop.
  The store is ECMA-262's ToInt16 (section 7.1.8), written out with its
  modulo-2^16 wrap, and proved never to wrap here.
- `CaptureSession` (`capture_session.dfy`): the background window's capture
  state machine (`start`, `stop`, `setVolume`, the visualizer interval, the
  IPC listeners) as a class whose fields are the script's module-level
  variables. Audio objects are opaque handles. IPC sends, node connections,
  gain writes, track stops, context closing and interval arming and clearing
  are appended to `effects`; the calls that create objects (`getDisplayMedia`,
  the context and node constructors, `addModule`) only hand out fresh handles.
- `ConnectionManager` (`connection_manager.dfy`): `WebSocketManager` with its
  nullable socket and callback slots; the reconnecting socket is a class with
  an abstract `readyState`, a record of what was sent and a count of close
  requests.
- `MainProcess` (`main_process.dfy`): the main process's WebSocket callbacks
  and IPC handlers over a key-value store, the two windows, the manager and a
  log of the IPC messages it sends.
- `Common` (`common.dfy`): `Option` and the `status-update` record.

Behaviours of the code worth knowing, which the model follows as written (the
intent is visible in the code itself, e.g. the `onMessage` handler at
App/main.js:71-75 and the 'Conectando...' case at App/main.js:190-191):

- `connect` is not idempotent: each call replaces the socket without closing
  the old one, whose listeners stay registered.
- A failed `start` does not roll back: handles assigned before the failing
  call stay set, nothing is released, and `stop` then returns at once because
  `isStreaming` is false.
- The server's `"token"` re-authentication challenge is never answered:
  `connect` registers no 'message' listener, so the `onMessage` that the main
  process installs never runs.
- `get-connection-status` never replies "Conectando...": for any state but
  OPEN it reads `wsManager.WebSocket.CONNECTING`, and `WebSocketManager` has
  no `WebSocket` property, so the handler throws and sends no reply.
- The main process keeps no streaming flag; `stop-stream` is forwarded as is.

Float samples are reals. A sample is a 32-bit float held in a double, and its
product with 0x8000 or 0x7FFF is exact in a double, so real arithmetic gives
the value the source stores.

## Model

| member | source | states |
|---|---|---|
| PcmConverter.Clamp | Domain/Service/audio-processor.js:11 | the clamped sample lies in [-1, 1], equals the input inside that range, and is the nearer bound outside it |
| PcmConverter.Truncate | Domain/Service/audio-processor.js:12 | the Int16Array store's truncation rounds toward zero: the result is within one of the input, on its side of zero |
| PcmConverter.ToInt16 | Domain/Service/audio-processor.js:12 | ToInt16 yields a value in [-32768, 32767] congruent to the truncated input modulo 2^16, equal to it when it already fits |
| PcmConverter.Scale | Domain/Service/audio-processor.js:12 | scaling keeps the sign and zero, maps [-1, 1] into the Int16 range, and full scale onto its ends -32768 and 32767 |
| PcmConverter.ConvertSample | Domain/Service/audio-processor.js:11-12 | every stored sample lies in [-32768, 32767]; negative inputs give results at most 0, non-negative inputs results at least 0 |
| PcmConverter.ConvertNeverWraps | Domain/Service/audio-processor.js:11-12 | the scaled sample always fits in 16 bits, so the store only truncates and never wraps |
| PcmConverter.ConvertRoundsTowardZero | Domain/Service/audio-processor.js:12 | for inputs in [-1, 1] the output is x·32767 (x ≥ 0) or x·32768 (x < 0) rounded toward zero |
| PcmConverter.ConvertSaturates | Domain/Service/audio-processor.js:11-12 | inputs ≥ 1 give 32767 and inputs ≤ -1 give -32768 |
| PcmConverter.ConvertZero | Domain/Service/audio-processor.js:11-12 | 0 converts to 0 |
| PcmConverter.TinyNegativesVanish | Domain/Service/audio-processor.js:12 | negative inputs above -1/32768 truncate to 0 |
| PcmConverter.ConvertMonotone | Domain/Service/audio-processor.js:11-12 | the conversion is monotone non-decreasing in the input |
| PcmConverter.Process | Domain/Service/audio-processor.js:2-24 | nothing is posted iff the first input has no channels; otherwise the posted buffer has channel 0's length and holds, in order, the conversion of each sample of channel 0 only; the processor is always kept alive |
| CaptureSession.Gain | Domain/View/audio.js:117-118 | the multiplier is the percentage over 100; it lies in [0, 2] exactly when the volume lies in [0, 200], and it is unity exactly at the initial volume 100 |
| CaptureSession.GainLinear | Domain/View/audio.js:117-118 | the multiplier is linear in the volume: doubling the volume doubles it, so volume 50 halves unity gain |
| CaptureSession.AudioCapture.constructor | Domain/View/audio.js:3-12 | the script starts idle, volume 100, empty token, no handles and no interval |
| CaptureSession.AudioCapture.UpdateStatus | Domain/View/audio.js:122-125 | one status message is sent carrying the current `isStreaming` and type error or info |
| CaptureSession.AudioCapture.SetVolume | Domain/View/audio.js:114-120 | the volume is always recorded; the gain is set to volume/100 exactly when a gain node exists |
| CaptureSession.AudioCapture.StartVisualizerLoop | Domain/View/audio.js:130-141 | any armed interval is cleared before a new one is armed, so exactly one interval is live afterwards, with the next interval id |
| CaptureSession.AudioCapture.StopVisualizerLoop | Domain/View/audio.js:144-147 | the armed interval, if any, is cleared and none is live afterwards |
| CaptureSession.AudioCapture.AcquireGraph | Domain/View/audio.js:23-45 | each handle is assigned a fresh value exactly when no earlier call threw; the remembered volume is applied to a new gain node |
| CaptureSession.AudioCapture.LinkGraph | Domain/View/audio.js:55-64 | source→gain→analyser→worklet→destination are connected, in that order, before streaming is reported as true and the visualizer is armed with the next interval id |
| CaptureSession.AudioCapture.Start | Domain/View/audio.js:16-70 | a no-op while streaming; otherwise streaming iff no call threw, and on success the one live interval is the newly armed id; on failure an error status with `isStreaming` false is sent and handles assigned before the failure are kept; the invariant (streaming iff one interval armed, full graph while streaming) is preserved |
| CaptureSession.AudioCapture.ReleaseGraph | Domain/View/audio.js:87-107 | tracks stopped, source, gain, analyser and worklet disconnected, context closed, all six handles null |
| CaptureSession.AudioCapture.Stop | Domain/View/audio.js:80-110 | a no-op when idle; from streaming, the interval is cleared first, then the whole graph is torn down, `isStreaming` is false and an info status 'Aguardando...' is sent; no handle or interval id is taken |
| CaptureSession.AudioCapture.VisualizerTick | Domain/View/audio.js:135-140 | a firing of a live interval sends the spectrum: its guard (streaming with an analyser) always holds under the invariant |
| CaptureSession.AudioCapture.WorkletMessage | Domain/View/audio.js:48-52 | every buffer the worklet posts is forwarded to the main process |
| CaptureSession.AudioCapture.IsListening | Domain/View/audio.js:72-78 | reports 'Transmitindo...' while streaming, an error status otherwise |
| CaptureSession.AudioCapture.OnSetToken | Domain/View/audio.js:165-167 | the token is replaced |
| CaptureSession.AudioCapture.OnAutoStart | Domain/View/audio.js:170-175 | the settings' token and volume are taken and the stream state is untouched: autostart never starts |
| CaptureSession.StartTwiceBuildsOneGraph | Domain/View/audio.js:17 | after two successful `start` calls from idle, the six handles are the ones the first call created, only six handles were taken, and the effect log holds exactly the first call's effects |
| CaptureSession.StartedIntervalFiresAndIsCleared | Domain/View/audio.js:130-147 | the interval a successful `start` arms is live, so its firing sends the spectrum, and the following `stop` clears exactly that interval |
| CaptureSession.StopTwiceIsStopOnce | Domain/View/audio.js:81 | two `stop` calls from streaming leave all six handles and the interval released and log the teardown exactly once; from idle they change nothing |
| ConnectionManager.Socket.constructor | Domain/Service/WebSocket.js:13 | a new reconnecting socket is connecting, has sent nothing and was never asked to close |
| ConnectionManager.Socket.Send | Domain/Service/WebSocket.js:36 | an open socket transmits the payload |
| ConnectionManager.AfterClose | Domain/Service/WebSocket.js:42 | `close()` leaves no socket CONNECTING or OPEN: those become CLOSING, and CLOSING or CLOSED stay as they are |
| ConnectionManager.Socket.Close | Domain/Service/WebSocket.js:42 | the socket records one more close request and moves at once to the state `AfterClose` gives |
| ConnectionManager.Socket.Transition | Domain/Service/WebSocket.js:13 | the network sets the state, except that a socket asked to close never becomes CONNECTING or OPEN again |
| ConnectionManager.WebSocketManager.constructor | Domain/Service/WebSocket.js:5-10 | a new manager has no socket and all callback slots empty |
| ConnectionManager.WebSocketManager.Connect | Domain/Service/WebSocket.js:12-32 | `ws` is always replaced by a fresh connecting socket, the previous one is not closed and keeps its listeners |
| ConnectionManager.WebSocketManager.Send | Domain/Service/WebSocket.js:34-38 | the payload is transmitted exactly when a socket exists and is OPEN; otherwise nothing changes |
| ConnectionManager.WebSocketManager.Close | Domain/Service/WebSocket.js:40-44 | the current socket, if any, receives one close request and stops being OPEN or CONNECTING, with nothing sent; otherwise a no-op |
| ConnectionManager.WebSocketManager.OpenListener | Domain/Service/WebSocket.js:15-19 | an 'open' event invokes `onOpen` exactly when that slot is set |
| ConnectionManager.WebSocketManager.CloseListener | Domain/Service/WebSocket.js:21-25 | a 'close' event invokes `onClose` exactly when that slot is set |
| ConnectionManager.WebSocketManager.ErrorListener | Domain/Service/WebSocket.js:27-31 | an 'error' event invokes `onError` exactly when that slot is set |
| ConnectionManager.WebSocketManager.MessageArrives | Domain/Service/WebSocket.js:12-32 | a 'message' event invokes no callback, since `connect` registers no listener for it |
| ConnectionManager.SendWhileDisconnectedIsDropped | Domain/Service/WebSocket.js:34-38 | a payload sent while not OPEN is not delivered later when the socket opens |
| ConnectionManager.SendAfterCloseIsDropped | Domain/Service/WebSocket.js:34-44 | after `close`, a `send` transmits nothing and the socket is not OPEN |
| ConnectionManager.ConnectIsNotIdempotent | Domain/Service/WebSocket.js:12-13 | two `connect` calls leave two distinct sockets, neither asked to close |
| MainProcess.Lookup | App/main.js:171 | `store.get(key)` yields a value exactly when the key was written, and then the written value |
| MainProcess.LookupOr | App/main.js:172-174 | `store.get(key, default)` yields the stored value when set and the default otherwise |
| MainProcess.SettingsFrom | App/main.js:170-175 | each of the four settings reads back as written; unset ones read as no token, volume 100 and both autostart flags false |
| MainProcess.SettingsReflectStore | App/main.js:169-175 | after a store write, `get-settings` reports the new value for that key and the old values for the others |
| MainProcess.ConnectionStatusReply | App/main.js:184-197 | the reply is 'Conectado' iff the socket is OPEN, 'Desconectado' iff there is no manager or socket, and absent (the handler throws) otherwise |
| MainProcess.Orchestrator.constructor | App/main.js:6-10 | the process starts with the loaded store, both windows and no manager |
| MainProcess.Orchestrator.TransportOpen | App/main.js:132 | the `start-stream` guard holds exactly when a manager and a socket exist and `get-connection-status` would reply 'Conectado' |
| MainProcess.Orchestrator.SetupWebSocket | App/main.js:59-89 | a fresh manager carries the four callbacks and one connecting socket that has sent nothing and was never asked to close |
| MainProcess.Orchestrator.OnOpen | App/main.js:63-69 | 'Conectado' to the main window, 'ws-ready' to the background window, and one token announcement with the stored token if the socket is OPEN; the socket's state and close requests are untouched |
| MainProcess.Orchestrator.OnMessage | App/main.js:71-75 | a 'token' message re-announces the stored token over an OPEN socket; the socket's state and close requests are untouched |
| MainProcess.Orchestrator.OnClose | App/main.js:77-80 | only a 'Desconectado' status goes to the main window |
| MainProcess.Orchestrator.OnError | App/main.js:82-85 | only an error status 'Erro de conexão' with `isStreaming` false goes to the main window |
| MainProcess.Orchestrator.SocketOpened | App/main.js:63-69 | an 'open' event from any of the manager's sockets runs `onOpen`: exactly one token announcement over an OPEN socket, which stays OPEN and is not asked to close |
| MainProcess.Orchestrator.SocketClosed | App/main.js:77-80 | a 'close' event sends only the status message, never 'stop-stream' |
| MainProcess.Orchestrator.SocketErrored | App/main.js:82-85 | an 'error' event sends only the status message, never 'stop-stream' |
| MainProcess.Orchestrator.SocketMessage | App/main.js:71-75 | an incoming message sends nothing over the socket: `onMessage` never runs |
| MainProcess.Orchestrator.StartStreamRequested | App/main.js:130-138 | 'start-stream' reaches the background window iff a manager and socket exist and the socket is OPEN; otherwise the main window gets the info status 'Aguardando conexão WebSocket...' with `isStreaming` false |
| MainProcess.Orchestrator.StopStreamRequested | App/main.js:140-142 | 'stop-stream' is forwarded to the background window regardless of the connection |
| MainProcess.Orchestrator.SetVolumeRequested | App/main.js:144-147 | the volume is stored and forwarded to the background window |
| MainProcess.Orchestrator.SendAudioData | App/main.js:150-154 | an audio buffer is transmitted exactly when the socket is OPEN; the socket's state and close requests are untouched |
| MainProcess.Orchestrator.SetSetting | App/main.js:157-166 | the store is always written; only a token with a background window is announced (if OPEN) and forwarded as 'set-token'; without a socket that path throws first; the socket's state and close requests are untouched |
| MainProcess.Orchestrator.GetSettings | App/main.js:169-180 | the settings with their defaults go to the main window and, as 'autostart-check', to the background window |
| MainProcess.Orchestrator.GetConnectionStatus | App/main.js:183-200 | the requester gets the reply for the socket's state; nothing is sent when the handler throws |
| MainProcess.Orchestrator.MainWindowClosed | App/main.js:27-36 | the main window is forgotten, the background window asked to close, and the manager's socket asked to close, which leaves it CLOSING or CLOSED |
| MainProcess.Orchestrator.BackgroundWindowClosed | App/main.js:54-56 | the background window is forgotten |
| MainProcess.AudioAfterMainWindowClosedIsDropped | App/main.js:27-36 | audio arriving after the main window has closed is not transmitted, because the socket is no longer OPEN |
| MainProcess.OpenedConnectionCarriesAudio | App/main.js:59-154 | from start-up, once the network opens the socket: the stored token is announced, 'start-stream' reaches the background window, and the next audio buffer is transmitted after the announcement |
| MainProcess.TokenChallengeGoesUnanswered | App/main.js:63-75 | after the socket opens, exactly one token announcement is sent, and a later 'token' challenge adds none |

## Left out

- Domain/View/rendere.js and Domain/View/ui.js are not part of this model: DOM wiring, localStorage, canvas drawing, and an older copy of the capture pipeline.
- App/preload.js and App/background-preload.js are not part of this model: they only map IPC channel names.
- Window creation, the display-media request handler and the app lifecycle (App/main.js:12-26, 39-53, 91-121): platform calls. The constructor of `Orchestrator` starts from both windows existing.
- The `is-stream`, `restart-app`, `status-update` and `visualizer-data` handlers (App/main.js:126-128, 202-219): plain relays or app restarts, with no logic of their own.
- The reconnecting socket's internals (backoff, its own outbound queue, the URL): a foreign library. Its `readyState` is changed by the network through `Socket.Transition`. `close` moves a CONNECTING or OPEN socket to CLOSING at once, and after it the socket may only become CLOSING or CLOSED. A `close` made while the library holds no underlying socket (between reconnection attempts) is modelled the same way, although the library then keeps reporting CONNECTING until its pending attempt is cancelled.
- JSON encoding: the token announcement is a datatype value; an unset token drops the `token` field, shown as `None`.
- Byte layout: the worklet's posted buffer and `Buffer.from` are modelled as the sequence of Int16 samples, not as bytes.
- Asynchronous interleaving: `start` runs as one atomic step with a parameter naming the call that throws. A `stop` arriving during its awaits is not modelled. Neither is a second `start-stream` arriving before the first `getDisplayMedia` resolves: in the program both pass the `isStreaming` guard (Domain/View/audio.js:17), which is only set at line 60, so both build a graph and both worklets post audio. StartTwiceBuildsOneGraph holds only because `start` is atomic here.
- CaptureSession.Gain, CaptureSession.GainLinear: the multiplier is modelled as the exact quotient `volume / 100`, without the rounding of the double division (Domain/View/audio.js:118) or of the float32 the AudioParam stores. The range, unity and doubling clauses also hold for the rounded values; the additive clause of GainLinear holds for the exact quotient only (in doubles, 10/100 + 20/100 differs from 30/100).
- NaN, infinities and negative zero: samples are real numbers.
- The spectrum data (`getByteFrequencyData`, 1024 bins for an FFT size of 2048) and the interval period (about 60 Hz) are parameters or events, not computed.
- The check `audioContext.state !== 'closed'` (Domain/View/audio.js:98): only `stop` closes a context and it drops the handle at once, so a held context is never closed and the close is always issued.
- The context's requested sample rate (44100 Hz) and the analyser's FFT size (Domain/View/audio.js:29-30, 38-39): configuration of foreign objects.
- Console logging and the empty `ws-ready` listener (Domain/View/audio.js:178-184).
- Values crossing IPC into the background window are taken at their expected types (token a string, volume an integer).
- The `outputs` and `parameters` arguments of `process`, which it never uses.
