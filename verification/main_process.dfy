/**
  The main process's orchestration: the settings store, the two windows, the
  WebSocket manager and the handlers wired to them in `setupWebSocket` and
  `ipcMain.on`. Messages the process sends to its windows, and its request to
  close the background window, are appended to `effects`; what it sends over
  the network is recorded on the manager's socket.
*/
module MainProcess {
  import opened Common
  import opened ConnectionManager

  /** A value the settings store holds (JSON-serialisable). */
  datatype Value = Str(s: string) | Num(n: int) | Bool(b: bool)

  /** What the main process hands to the socket. */
  datatype Payload =
    | AudioData(bytes: seq<int>)
    /** `JSON.stringify({ type: 'token', token })`; an unset token drops the field. */
    | TokenAnnouncement(token: Option<Value>)

  /** The object `get-settings` assembles. */
  datatype Settings = Settings(token: Option<Value>, volume: Value, autoStartWindows: Value, autoStartStream: Value)

  /** `Requester` is the window whose request is being answered (`event.sender`). */
  datatype Window = MainWindow | BackgroundWindow | Requester

  /** One IPC message, by channel. */
  datatype Message =
    | ConnectionStatusUpdate(text: string)
    | StatusUpdate(status: Status)
    | WsReady
    | StartStream
    | StopStream
    | SetVolume(volume: Value)
    | SetToken(token: Value)
    | SettingsLoaded(settings: Settings)
    | AutostartCheck(settings: Settings)

  datatype Effect = Deliver(to: Window, message: Message) | CloseBackgroundWindow

  const Connected: string := "Conectado"
  const Disconnected: string := "Desconectado"
  const WaitingForConnection: string := "Aguardando conexão WebSocket..."
  const ConnectionError: string := "Erro de conexão"

  const OpenCallback: Callback := Callback(0)
  const CloseCallback: Callback := Callback(1)
  const ErrorCallback: Callback := Callback(2)
  const MessageCallback: Callback := Callback(3)

  /** `store.get(key)`: the stored value, or nothing for a key never written. */
  function Lookup(store: map<string, Value>, key: string): (v: Option<Value>)
    ensures v.Some? <==> key in store
    ensures v.Some? ==> v.value == store[key]
  {
    if key in store then Some(store[key]) else None
  }

  /** `store.get(key, fallback)`. */
  function LookupOr(store: map<string, Value>, key: string, fallback: Value): (v: Value)
    ensures key in store ==> v == store[key]
    ensures key !in store ==> v == fallback
  {
    if key in store then store[key] else fallback
  }

  /**
    The settings object `get-settings` builds from the store: a setting that
    was written reads back as written; one never written reads as no token,
    volume 100 and both autostart flags off.
  */
  function SettingsFrom(store: map<string, Value>): (settings: Settings)
    ensures "token" in store ==> settings.token == Some(store["token"])
    ensures "token" !in store ==> settings.token.None?
    ensures "volume" in store ==> settings.volume == store["volume"]
    ensures "volume" !in store ==> settings.volume == Num(100)
    ensures "autoStartWindows" in store ==> settings.autoStartWindows == store["autoStartWindows"]
    ensures "autoStartWindows" !in store ==> settings.autoStartWindows == Bool(false)
    ensures "autoStartStream" in store ==> settings.autoStartStream == store["autoStartStream"]
    ensures "autoStartStream" !in store ==> settings.autoStartStream == Bool(false)
  {
    Settings(
      Lookup(store, "token"),
      LookupOr(store, "volume", Num(100)),
      LookupOr(store, "autoStartWindows", Bool(false)),
      LookupOr(store, "autoStartStream", Bool(false)))
  }

  /** A value written with `set-setting` (or `set-volume`) is what `get-settings` reports next, and the other settings are untouched. */
  lemma SettingsReflectStore(store: map<string, Value>, key: string, value: Value)
    ensures key == "token" ==> SettingsFrom(store[key := value]) == SettingsFrom(store).(token := Some(value))
    ensures key == "volume" ==> SettingsFrom(store[key := value]) == SettingsFrom(store).(volume := value)
    ensures key == "autoStartWindows" ==> SettingsFrom(store[key := value]) == SettingsFrom(store).(autoStartWindows := value)
    ensures key == "autoStartStream" ==> SettingsFrom(store[key := value]) == SettingsFrom(store).(autoStartStream := value)
    ensures key !in {"token", "volume", "autoStartWindows", "autoStartStream"} ==> SettingsFrom(store[key := value]) == SettingsFrom(store)
  {
  }

  /**
    The reply of `get-connection-status` for the socket's state (None: no
    manager or no socket). Any state but OPEN makes the handler evaluate
    `wsManager.WebSocket.CONNECTING`, which throws a TypeError because the
    manager has no `WebSocket` property: then there is no reply at all.
    So the reply says connected exactly when the socket is open, disconnected
    exactly when there is none, and is missing otherwise.
  */
  function ConnectionStatusReply(socket: Option<ReadyState>): (reply: Option<string>)
    ensures reply == Some(Connected) <==> socket == Some(Open)
    ensures reply == Some(Disconnected) <==> socket.None?
    ensures reply.None? <==> socket.Some? && socket.value != Open
  {
    match socket
    case None => Some(Disconnected)
    case Some(state) => if state == Open then Some(Connected) else None
  }

  /** The one-item log entry made when `condition` holds, and nothing otherwise. */
  function When<T>(condition: bool, item: T): seq<T>
  {
    if condition then [item] else []
  }

  class Orchestrator {
    var store: map<string, Value>
    var mainWindow: bool        // whether `mainWindow` refers to a window
    var backgroundWindow: bool  // whether `backgroundWindow` refers to a window
    var wsManager: WebSocketManager?<Payload>
    var effects: seq<Effect>

    /** The manager's current socket, if any: what `send` and `close` act on. */
    function CurrentSocket(): Socket?<Payload>
      reads this, wsManager
    {
      if wsManager != null then wsManager.ws else null
    }

    /**
      `wsManager && wsManager.ws && wsManager.ws.readyState === OPEN`: the test
      `start-stream` applies, which holds exactly when `get-connection-status`
      would reply "Conectado".
    */
    function TransportOpen(): (open: bool)
      reads this, wsManager, CurrentSocket()
      ensures open ==> wsManager != null && wsManager.ws != null
      ensures open <==> ConnectionStatusReply(SocketState()) == Some(Connected)
    {
      CurrentSocket() != null && CurrentSocket().readyState == Open
    }

    /** The socket's state as `get-connection-status` sees it. */
    function SocketState(): Option<ReadyState>
      reads this, wsManager, CurrentSocket()
    {
      if CurrentSocket() != null then Some(CurrentSocket().readyState) else None
    }

    /** Once set up, the manager is consistent and carries this process's four callbacks. */
    ghost predicate Valid()
      reads this, wsManager
    {
      wsManager != null ==>
        && wsManager.Valid()
        && wsManager.onOpen == Some(OpenCallback)
        && wsManager.onClose == Some(CloseCallback)
        && wsManager.onError == Some(ErrorCallback)
        && wsManager.onMessage == Some(MessageCallback)
    }

    /** The process once both windows exist, before `setupWebSocket`; `persisted` is what the store loads from disk. */
    constructor (persisted: map<string, Value>)
      ensures Valid()
      ensures store == persisted && mainWindow && backgroundWindow && wsManager == null && effects == []
    {
      store, mainWindow, backgroundWindow := persisted, true, true;
      wsManager, effects := null, [];
    }

    /** `setupWebSocket`: a fresh manager with the four callbacks installed, then `connect`. */
    method SetupWebSocket()
      modifies this`wsManager
      ensures Valid()
      ensures wsManager != null && fresh(wsManager) && |wsManager.sockets| == 1
      ensures fresh(wsManager.ws) && wsManager.ws.readyState == Connecting && wsManager.ws.sent == []
      ensures wsManager.ws.closeCalls == 0
    {
      wsManager := new WebSocketManager();
      wsManager.onOpen := Some(OpenCallback);
      wsManager.onMessage := Some(MessageCallback);
      wsManager.onClose := Some(CloseCallback);
      wsManager.onError := Some(ErrorCallback);
      wsManager.Connect();
    }

    /** The `onOpen` callback: report connected, signal the background window, announce the stored token. */
    method OnOpen()
      requires wsManager != null
      modifies this`effects, CurrentSocket()
      ensures effects == old(effects)
        + When(mainWindow, Deliver(MainWindow, ConnectionStatusUpdate(Connected)))
        + When(backgroundWindow, Deliver(BackgroundWindow, WsReady))
      ensures CurrentSocket() != null ==>
        && CurrentSocket().readyState == old(CurrentSocket().readyState)
        && CurrentSocket().closeCalls == old(CurrentSocket().closeCalls)
        && CurrentSocket().sent == old(CurrentSocket().sent)
             + When(old(CurrentSocket().readyState) == Open, TokenAnnouncement(Lookup(store, "token")))
    {
      if mainWindow {
        effects := effects + [Deliver(MainWindow, ConnectionStatusUpdate(Connected))];
      }
      if backgroundWindow {
        effects := effects + [Deliver(BackgroundWindow, WsReady)];
      }
      wsManager.Send(TokenAnnouncement(Lookup(store, "token")));
    }

    /** The `onMessage` callback: a `"token"` challenge re-announces the stored token. */
    method OnMessage(data: string)
      requires wsManager != null
      modifies CurrentSocket()
      ensures CurrentSocket() != null ==>
        && CurrentSocket().readyState == old(CurrentSocket().readyState)
        && CurrentSocket().closeCalls == old(CurrentSocket().closeCalls)
        && CurrentSocket().sent == old(CurrentSocket().sent)
             + When(data == "token" && old(CurrentSocket().readyState) == Open, TokenAnnouncement(Lookup(store, "token")))
    {
      if data == "token" {
        wsManager.Send(TokenAnnouncement(Lookup(store, "token")));
      }
    }

    /** The `onClose` callback: only reports the disconnection. */
    method OnClose()
      modifies this`effects
      ensures effects == old(effects) + When(mainWindow, Deliver(MainWindow, ConnectionStatusUpdate(Disconnected)))
    {
      if mainWindow {
        effects := effects + [Deliver(MainWindow, ConnectionStatusUpdate(Disconnected))];
      }
    }

    /** The `onError` callback: only reports a connection error, as not streaming. */
    method OnError()
      modifies this`effects
      ensures effects == old(effects) + When(mainWindow, Deliver(MainWindow, StatusUpdate(Status(ConnectionError, false, Error))))
    {
      if mainWindow {
        effects := effects + [Deliver(MainWindow, StatusUpdate(Status(ConnectionError, false, Error)))];
      }
    }

    /** Socket `s` fires 'open': `onOpen` runs, so exactly one token announcement is sent if the current socket is open. */
    method SocketOpened(s: Socket<Payload>)
      requires Valid() && wsManager != null && s in wsManager.sockets
      modifies this`effects, CurrentSocket()
      ensures effects == old(effects)
        + When(mainWindow, Deliver(MainWindow, ConnectionStatusUpdate(Connected)))
        + When(backgroundWindow, Deliver(BackgroundWindow, WsReady))
      ensures CurrentSocket().readyState == old(CurrentSocket().readyState)
      ensures CurrentSocket().closeCalls == old(CurrentSocket().closeCalls)
      ensures CurrentSocket().sent == old(CurrentSocket().sent)
        + When(old(CurrentSocket().readyState) == Open, TokenAnnouncement(Lookup(store, "token")))
    {
      var invoked := wsManager.OpenListener(s);
      if invoked == Some(OpenCallback) {
        OnOpen();
      }
    }

    /** Socket `s` fires 'close': only a status message; streaming is not stopped. */
    method SocketClosed(s: Socket<Payload>)
      requires Valid() && wsManager != null && s in wsManager.sockets
      modifies this`effects
      ensures effects == old(effects) + When(mainWindow, Deliver(MainWindow, ConnectionStatusUpdate(Disconnected)))
    {
      var invoked := wsManager.CloseListener(s);
      if invoked == Some(CloseCallback) {
        OnClose();
      }
    }

    /** Socket `s` fires 'error': only a status message; streaming is not stopped. */
    method SocketErrored(s: Socket<Payload>)
      requires Valid() && wsManager != null && s in wsManager.sockets
      modifies this`effects
      ensures effects == old(effects) + When(mainWindow, Deliver(MainWindow, StatusUpdate(Status(ConnectionError, false, Error))))
    {
      var invoked := wsManager.ErrorListener(s);
      if invoked == Some(ErrorCallback) {
        OnError();
      }
    }

    /** A message arrives on socket `s`: the manager registered no listener, so `onMessage` never runs and nothing is re-announced. */
    method SocketMessage(s: Socket<Payload>, data: string)
      requires Valid() && wsManager != null && s in wsManager.sockets
      ensures CurrentSocket() != null ==> CurrentSocket().sent == old(CurrentSocket().sent)
    {
      var invoked := wsManager.MessageArrives(s, data);
      assert invoked.None?;
    }

    /** `start-stream`: forwarded to the background window only over an open socket; otherwise the main window is told to wait. */
    method StartStreamRequested()
      modifies this`effects
      ensures effects == old(effects) +
        if TransportOpen() then When(backgroundWindow, Deliver(BackgroundWindow, StartStream))
        else When(mainWindow, Deliver(MainWindow, StatusUpdate(Status(WaitingForConnection, false, Info))))
    {
      if wsManager != null && wsManager.ws != null && wsManager.ws.readyState == Open {
        if backgroundWindow {
          effects := effects + [Deliver(BackgroundWindow, StartStream)];
        }
      } else {
        if mainWindow {
          effects := effects + [Deliver(MainWindow, StatusUpdate(Status(WaitingForConnection, false, Info)))];
        }
      }
    }

    /** `stop-stream`: forwarded to the background window, whatever the connection. */
    method StopStreamRequested()
      modifies this`effects
      ensures effects == old(effects) + When(backgroundWindow, Deliver(BackgroundWindow, StopStream))
    {
      if backgroundWindow {
        effects := effects + [Deliver(BackgroundWindow, StopStream)];
      }
    }

    /** `set-volume`: always stored, then forwarded to the background window. */
    method SetVolumeRequested(volume: Value)
      modifies this`store, this`effects
      ensures store == old(store)["volume" := volume]
      ensures effects == old(effects) + When(backgroundWindow, Deliver(BackgroundWindow, SetVolume(volume)))
    {
      store := store["volume" := volume];
      if backgroundWindow {
        effects := effects + [Deliver(BackgroundWindow, SetVolume(volume))];
      }
    }

    /** `send-audio-data`: handed to the manager, which transmits it only over an open socket. */
    method SendAudioData(bytes: seq<int>)
      modifies CurrentSocket()
      ensures CurrentSocket() != null ==>
        && CurrentSocket().sent == old(CurrentSocket().sent) + When(old(CurrentSocket().readyState) == Open, AudioData(bytes))
        && CurrentSocket().readyState == old(CurrentSocket().readyState)
        && CurrentSocket().closeCalls == old(CurrentSocket().closeCalls)
    {
      if wsManager != null {
        wsManager.Send(AudioData(bytes));
      }
    }

    /**
      `set-setting`: always stored. For the token, with a background window:
      announced over the socket if it is open, then forwarded as `set-token`.
      `threw` is true when that path reads the socket of a missing manager or
      socket, which throws a TypeError before anything is announced or forwarded.
    */
    method SetSetting(key: string, value: Value) returns (threw: bool)
      modifies this`store, this`effects, CurrentSocket()
      ensures store == old(store)[key := value]
      ensures threw <==> key == "token" && backgroundWindow && CurrentSocket() == null
      ensures effects == old(effects) + When(key == "token" && backgroundWindow && !threw, Deliver(BackgroundWindow, SetToken(value)))
      ensures CurrentSocket() != null ==>
        && CurrentSocket().readyState == old(CurrentSocket().readyState)
        && CurrentSocket().closeCalls == old(CurrentSocket().closeCalls)
        && CurrentSocket().sent == old(CurrentSocket().sent)
             + When(key == "token" && backgroundWindow && old(CurrentSocket().readyState) == Open, TokenAnnouncement(Some(value)))
    {
      store := store[key := value];
      threw := false;
      if key == "token" && backgroundWindow {
        if wsManager == null || wsManager.ws == null {
          threw := true;
          return;
        }
        if wsManager.ws.readyState == Open {
          wsManager.Send(TokenAnnouncement(Some(value)));
        }
        effects := effects + [Deliver(BackgroundWindow, SetToken(value))];
      }
    }

    /** `get-settings`: the settings with their defaults, to the main window and as `autostart-check` to the background window. */
    method GetSettings()
      modifies this`effects
      ensures effects == old(effects)
        + When(mainWindow, Deliver(MainWindow, SettingsLoaded(SettingsFrom(store))))
        + When(backgroundWindow, Deliver(BackgroundWindow, AutostartCheck(SettingsFrom(store))))
    {
      var settings := SettingsFrom(store);
      if mainWindow {
        effects := effects + [Deliver(MainWindow, SettingsLoaded(settings))];
      }
      if backgroundWindow {
        effects := effects + [Deliver(BackgroundWindow, AutostartCheck(settings))];
      }
    }

    /** `get-connection-status`: the reply goes to the requesting window; a throwing case sends nothing. */
    method GetConnectionStatus()
      modifies this`effects
      ensures effects == old(effects) +
        match ConnectionStatusReply(SocketState())
        case Some(text) => [Deliver(Requester, ConnectionStatusUpdate(text))]
        case None => []
    {
      var statusMessage := Disconnected;
      if wsManager != null && wsManager.ws != null {
        if wsManager.ws.readyState == Open {
          statusMessage := Connected;
        } else {
          // reading `wsManager.WebSocket.CONNECTING` throws
          return;
        }
      }
      effects := effects + [Deliver(Requester, ConnectionStatusUpdate(statusMessage))];
    }

    /** The main window's 'closed' event: forget it, close the background window, close the socket. */
    method MainWindowClosed()
      modifies this`mainWindow, this`effects, CurrentSocket()
      ensures !mainWindow
      ensures effects == old(effects) + When(backgroundWindow, CloseBackgroundWindow)
      ensures CurrentSocket() != null ==>
        && CurrentSocket().closeCalls == old(CurrentSocket().closeCalls) + 1
        && CurrentSocket().sent == old(CurrentSocket().sent)
        && CurrentSocket().readyState == AfterClose(old(CurrentSocket().readyState))
    {
      mainWindow := false;
      if backgroundWindow {
        effects := effects + [CloseBackgroundWindow];
      }
      if wsManager != null {
        wsManager.Close();
      }
    }

    /** The background window's 'closed' event. */
    method BackgroundWindowClosed()
      modifies this`backgroundWindow
      ensures !backgroundWindow
    {
      backgroundWindow := false;
    }
  }

  /** Opening announces the stored token once; a later `"token"` challenge from the server is never answered. */
  method TokenChallengeGoesUnanswered(hub: Orchestrator)
    requires hub.Valid() && hub.wsManager != null && hub.CurrentSocket() != null && hub.CurrentSocket().closeCalls == 0
    modifies hub`effects, hub.CurrentSocket()
    ensures hub.CurrentSocket().sent == old(hub.CurrentSocket().sent) + [TokenAnnouncement(Lookup(hub.store, "token"))]
  {
    var socket := hub.CurrentSocket();
    socket.Transition(Open);
    hub.SocketOpened(socket);
    hub.SocketMessage(socket, "token");
  }

  /** Once the main window has closed, audio still arriving is dropped: the socket is closing and never reopens. */
  method AudioAfterMainWindowClosedIsDropped(hub: Orchestrator, bytes: seq<int>)
    requires hub.Valid() && hub.CurrentSocket() != null
    modifies hub`mainWindow, hub`effects, hub.CurrentSocket()
    ensures hub.CurrentSocket().readyState != Open
    ensures hub.CurrentSocket().sent == old(hub.CurrentSocket().sent)
  {
    hub.MainWindowClosed();
    hub.SendAudioData(bytes);
  }

  /**
    The whole happy path from start-up: set up the socket, the network opens
    it, the 'open' event announces the stored token, `start-stream` is
    forwarded and the next audio buffer is transmitted after the announcement.
  */
  method OpenedConnectionCarriesAudio(persisted: map<string, Value>, bytes: seq<int>) returns (hub: Orchestrator)
    ensures hub.Valid() && hub.TransportOpen()
    ensures hub.CurrentSocket().sent == [TokenAnnouncement(Lookup(persisted, "token")), AudioData(bytes)]
    ensures hub.effects == [
      Deliver(MainWindow, ConnectionStatusUpdate(Connected)),
      Deliver(BackgroundWindow, WsReady),
      Deliver(BackgroundWindow, StartStream)]
  {
    hub := new Orchestrator(persisted);
    hub.SetupWebSocket();
    var socket := hub.CurrentSocket();
    socket.Transition(Open);
    hub.SocketOpened(socket);
    hub.StartStreamRequested();
    hub.SendAudioData(bytes);
  }
}
