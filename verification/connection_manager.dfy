/**
  `WebSocketManager`: a holder for one reconnecting socket plus the owner's
  callback slots. The reconnecting socket itself is a foreign library; it is
  modelled by `Socket`, whose `readyState` the network changes and which
  records what was sent on it and how often it was asked to close.
  The manager is generic in the payload type: it forwards whatever it is given.
*/
module ConnectionManager {
  import opened Common

  /** The WebSocket `readyState` values (0 to 3). */
  datatype ReadyState = Connecting | Open | Closing | Closed

  /** An owner-supplied function stored in a callback slot, known only by its identity. */
  datatype Callback = Callback(id: nat)

  /** The state `close()` leaves a socket in: CONNECTING and OPEN become CLOSING; CLOSING and CLOSED stay. */
  function AfterClose(state: ReadyState): (next: ReadyState)
    ensures next != Open && next != Connecting
    ensures state == Closing || state == Closed ==> next == state
    ensures state == Open || state == Connecting ==> next == Closing
  {
    match state
    case Connecting | Open => Closing
    case Closing | Closed => state
  }

  /** A reconnecting socket, seen from outside. */
  class Socket<P> {
    var readyState: ReadyState
    var sent: seq<P>
    var closeCalls: nat

    /** A socket starts connecting as soon as it is constructed. */
    constructor ()
      ensures readyState == Connecting && sent == [] && closeCalls == 0
    {
      readyState, sent, closeCalls := Connecting, [], 0;
    }

    /** The socket transmits only while open. */
    method Send(data: P)
      requires readyState == Open
      modifies this`sent
      ensures sent == old(sent) + [data]
    {
      sent := sent + [data];
    }

    /**
      A close request: a connecting or open socket becomes closing at once and
      stops reconnecting; the final move to closed arrives later from the network.
    */
    method Close()
      modifies this`closeCalls, this`readyState
      ensures closeCalls == old(closeCalls) + 1
      ensures readyState == AfterClose(old(readyState))
    {
      closeCalls := closeCalls + 1;
      readyState := AfterClose(readyState);
    }

    /**
      The network moves the socket to another state. A socket that was asked
      to close never reconnects, so it can only move on to closing or closed.
    */
    method Transition(next: ReadyState)
      requires closeCalls == 0 || next == Closing || next == Closed
      modifies this`readyState
      ensures readyState == next
    {
      readyState := next;
    }
  }

  class WebSocketManager<P> {
    var ws: Socket?<P>
    /** Every socket `connect` has created, oldest first; each keeps the listeners registered on it. */
    var sockets: seq<Socket<P>>
    var onOpen: Option<Callback>
    var onClose: Option<Callback>
    var onError: Option<Callback>
    /** Not declared by the class; an owner may still assign it, but no listener ever reads it. */
    var onMessage: Option<Callback>

    /** `ws` is the socket the latest `connect` created. */
    ghost predicate Valid()
      reads this
    {
      if sockets == [] then ws == null else ws == sockets[|sockets| - 1]
    }

    /** A new manager has no socket and empty callback slots. */
    constructor ()
      ensures Valid()
      ensures ws == null && sockets == []
      ensures onOpen.None? && onClose.None? && onError.None? && onMessage.None?
    {
      ws, sockets := null, [];
      onOpen, onClose, onError, onMessage := None, None, None, None;
    }

    /**
      `connect`: always replaces `ws` with a fresh socket and registers the
      open, close and error listeners on it (no message listener). The previous
      socket is not closed and keeps its listeners.
    */
    method Connect()
      requires Valid()
      modifies this`ws, this`sockets
      ensures Valid()
      ensures ws != null && fresh(ws)
      ensures ws.readyState == Connecting && ws.sent == [] && ws.closeCalls == 0
      ensures sockets == old(sockets) + [ws]
      ensures old(ws) != null ==> old(ws).closeCalls == old(ws.closeCalls)
    {
      ws := new Socket();
      sockets := sockets + [ws];
    }

    /** `send`: forwards `data` exactly when there is a socket and it is open; otherwise drops it. */
    method Send(data: P)
      modifies ws
      ensures ws != null ==> ws.readyState == old(ws.readyState) && ws.closeCalls == old(ws.closeCalls)
      ensures ws != null ==> ws.sent == if old(ws.readyState) == Open then old(ws.sent) + [data] else old(ws.sent)
    {
      if ws != null && ws.readyState == Open {
        ws.Send(data);
      }
    }

    /** `close`: asks the current socket to close; a no-op without one. */
    method Close()
      modifies ws
      ensures ws != null ==> ws.readyState == AfterClose(old(ws.readyState)) && ws.sent == old(ws.sent)
      ensures ws != null ==> ws.closeCalls == old(ws.closeCalls) + 1
    {
      if ws != null {
        ws.Close();
      }
    }

    /** The 'open' listener on socket `s`: invokes `onOpen` if the slot is set. */
    method OpenListener(s: Socket<P>) returns (invoked: Option<Callback>)
      requires s in sockets
      ensures invoked.Some? <==> onOpen.Some?
      ensures invoked.Some? ==> invoked == onOpen
    {
      invoked := None;
      if onOpen.Some? {
        invoked := onOpen;
      }
    }

    /** The 'close' listener on socket `s`: invokes `onClose` if the slot is set. */
    method CloseListener(s: Socket<P>) returns (invoked: Option<Callback>)
      requires s in sockets
      ensures invoked.Some? <==> onClose.Some?
      ensures invoked.Some? ==> invoked == onClose
    {
      invoked := None;
      if onClose.Some? {
        invoked := onClose;
      }
    }

    /** The 'error' listener on socket `s`: invokes `onError` if the slot is set. */
    method ErrorListener(s: Socket<P>) returns (invoked: Option<Callback>)
      requires s in sockets
      ensures invoked.Some? <==> onError.Some?
      ensures invoked.Some? ==> invoked == onError
    {
      invoked := None;
      if onError.Some? {
        invoked := onError;
      }
    }

    /** A 'message' event on socket `s`: `connect` registered no listener for it, so nothing runs, whatever `onMessage` holds. */
    method MessageArrives<D>(s: Socket<P>, data: D) returns (invoked: Option<Callback>)
      requires s in sockets
      ensures invoked.None?
    {
      invoked := None;
    }
  }

  /** Sending while the socket (not yet asked to close) is not open leaves no trace, even after it opens later. */
  method SendWhileDisconnectedIsDropped<P>(manager: WebSocketManager<P>, data: P)
    requires manager.Valid() && manager.ws != null && manager.ws.readyState != Open && manager.ws.closeCalls == 0
    modifies manager.ws
    ensures manager.ws.readyState == Open && manager.ws.sent == old(manager.ws.sent)
  {
    manager.Send(data);
    manager.ws.Transition(Open);
  }

  /** After `close`, the socket drops whatever is sent, and it can never open again. */
  method SendAfterCloseIsDropped<P>(manager: WebSocketManager<P>, data: P)
    requires manager.Valid() && manager.ws != null
    modifies manager.ws
    ensures manager.ws.readyState != Open && manager.ws.closeCalls > 0
    ensures manager.ws.sent == old(manager.ws.sent)
  {
    manager.Close();
    manager.Send(data);
  }

  /** Connecting twice leaves two live sockets, neither asked to close. */
  method ConnectIsNotIdempotent<P>(manager: WebSocketManager<P>)
    requires manager.Valid()
    modifies manager`ws, manager`sockets
    ensures manager.Valid() && |manager.sockets| == |old(manager.sockets)| + 2
    ensures manager.sockets[|manager.sockets| - 2] != manager.ws
    ensures manager.sockets[|manager.sockets| - 2].closeCalls == 0 && manager.ws.closeCalls == 0
  {
    manager.Connect();
    var first := manager.ws;
    manager.Connect();
    assert manager.sockets[|manager.sockets| - 2] == first;
  }
}
