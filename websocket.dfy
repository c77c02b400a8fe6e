/** The wallet's websocket hook: which piece of state an incoming message
    updates, the send guard, and the connected flag with its reconnect timer. */
module WebSocket {
  import opened Shared

  /** `ServerStatus`: the initial INACTIVE, or whatever the server reported. */
  datatype ServerStatus = Inactive | Reported(name: string)

  /** A parsed message; a key absent from the JSON object is `None`. */
  datatype Message = Message(
    serverStatus: Option<string>,
    uuid: string,
    signerActive: bool,
    status: Option<string>,
    contractId: Option<string>,
    lnInvoice: Option<string>,
    kind: Kind)

  /** What `JSON.parse` gives: an object, a falsy value, or an exception. */
  datatype Incoming = Parsed(msg: Message) | ParsedFalsy | ParseError

  /** The state slot a message goes to. */
  datatype Route = ToServerStatus | ToData | ToReceiveContractId | ToHodlInvoice | ToInitiation | Dropped

  /** The `if` chain of `onmessage`: the first key that is present wins. */
  function Classify(incoming: Incoming): (r: Route)
    ensures r == ToServerStatus <==> incoming.Parsed? && incoming.msg.serverStatus.Some?
    ensures r == ToData <==> incoming.Parsed? && incoming.msg.serverStatus.None? && incoming.msg.status.Some?
    ensures r == ToReceiveContractId <==>
              incoming.Parsed? && incoming.msg.serverStatus.None? && incoming.msg.status.None?
              && incoming.msg.contractId.Some?
    ensures r == ToHodlInvoice <==>
              incoming.Parsed? && incoming.msg.serverStatus.None? && incoming.msg.status.None?
              && incoming.msg.contractId.None? && incoming.msg.lnInvoice.Some? && incoming.msg.kind == HodlResKind
    ensures r == ToInitiation <==>
              incoming.Parsed? && incoming.msg.serverStatus.None? && incoming.msg.status.None?
              && incoming.msg.contractId.None? && incoming.msg.lnInvoice.Some? && incoming.msg.kind != HodlResKind
    ensures r == Dropped <==>
              !incoming.Parsed? || (incoming.msg.serverStatus.None? && incoming.msg.status.None?
                                    && incoming.msg.contractId.None? && incoming.msg.lnInvoice.None?)
  {
    match incoming
    case ParsedFalsy => Dropped
    case ParseError => Dropped
    case Parsed(m) =>
      if m.serverStatus.Some? then ToServerStatus
      else if m.status.Some? then ToData
      else if m.contractId.Some? then ToReceiveContractId
      else if m.lnInvoice.Some? && m.kind == HodlResKind then ToHodlInvoice
      else if m.lnInvoice.Some? then ToInitiation
      else Dropped
  }

  /** The reconnect bookkeeping: the connected flag, whether the
      `reconnectInterval` ref holds a timer, and whether that timer still runs. */
  datatype Connection = Connection(connected: bool, intervalRef: bool, timerRunning: bool)

  const InitialConnection := Connection(false, false, false)

  /** `onclose`: disconnected; a timer is started only when the ref is empty. */
  function Close(c: Connection): (r: Connection)
    ensures !r.connected
    ensures r.intervalRef
    ensures !c.intervalRef ==> r.timerRunning
    ensures c.intervalRef ==> r.timerRunning == c.timerRunning
  {
    if c.intervalRef then c.(connected := false)
    else Connection(false, true, true)
  }

  /** `onopen` as written: the timer is cleared but the ref keeps its value. */
  function OpenAsWritten(c: Connection): (r: Connection)
    ensures r.connected
    ensures r.intervalRef == c.intervalRef
    ensures c.intervalRef ==> !r.timerRunning
    ensures !c.intervalRef ==> r.timerRunning == c.timerRunning
  {
    if c.intervalRef then Connection(true, true, false) else c.(connected := true)
  }

  /** The second disconnect starts no reconnect timer: after close, open,
      close the ref is still set, so `onclose` does not start one. */
  lemma SecondCloseHasNoTimer()
    ensures var c := Close(OpenAsWritten(Close(InitialConnection)));
            !c.connected && !c.timerRunning
  {
  }

  /** `onopen` with the ref emptied when the timer is cleared. */
  function Open(c: Connection): (r: Connection)
    ensures r.connected && !r.timerRunning && !r.intervalRef
  {
    Connection(true, false, false)
  }

  /** The ref is set exactly when a timer runs. */
  predicate Coherent(c: Connection)
  {
    c.intervalRef == c.timerRunning
  }

  /** The state the socket callbacks can reach: a run of opens and closes
      applied to the initial state (`true` for an open). */
  function Replay(c: Connection, events: seq<bool>): Connection
    decreases |events|
  {
    if events == [] then c
    else Replay(if events[0] then Open(c) else Close(c), events[1..])
  }

  /** With `Open`, every reachable state is coherent, so every disconnect
      leaves a reconnect timer running. */
  lemma {:induction false} ReplayCoherent(c: Connection, events: seq<bool>)
    requires Coherent(c)
    ensures Coherent(Replay(c, events))
    ensures events != [] && !events[|events| - 1] ==> Replay(c, events).timerRunning
    decreases |events|
  {
    if events != [] {
      var next := if events[0] then Open(c) else Close(c);
      ReplayCoherent(next, events[1..]);
      if |events| == 1 {
        assert Replay(c, events) == Replay(next, []);
      } else {
        assert events[1..][|events[1..]| - 1] == events[|events| - 1];
      }
    }
  }

  /** The hook's state, with `onopen` as written (`OpenAsWritten`). */
  class WebSocketClient {
    var status: ServerStatus
    var data: Option<Message>
    var uuid: string
    var signerActive: bool
    var initiation: Option<Message>
    var hodlInvoice: Option<Message>
    var receiveContractId: string
    var connection: Connection
    var sent: seq<Message>

    constructor ()
      ensures status == Inactive && data == None && uuid == "" && signerActive
      ensures initiation == None && hodlInvoice == None && receiveContractId == ""
      ensures connection == InitialConnection && !connection.connected
      ensures sent == []
    {
      status := Inactive;
      data := None;
      uuid := "";
      signerActive := true;
      initiation := None;
      hodlInvoice := None;
      receiveContractId := "";
      connection := InitialConnection;
      sent := [];
    }

    /** `onmessage`: exactly the slot `Classify` picks changes. */
    method OnMessage(incoming: Incoming)
      modifies this`status, this`uuid, this`signerActive, this`data, this`receiveContractId,
               this`hodlInvoice, this`initiation
      ensures Classify(incoming) == ToServerStatus ==>
                status == Reported(incoming.msg.serverStatus.value) && uuid == incoming.msg.uuid
                && signerActive == incoming.msg.signerActive
      ensures Classify(incoming) != ToServerStatus ==>
                status == old(status) && uuid == old(uuid) && signerActive == old(signerActive)
      ensures data == if Classify(incoming) == ToData then Some(incoming.msg) else old(data)
      ensures receiveContractId == if Classify(incoming) == ToReceiveContractId
                                   then incoming.msg.contractId.value else old(receiveContractId)
      ensures hodlInvoice == if Classify(incoming) == ToHodlInvoice then Some(incoming.msg) else old(hodlInvoice)
      ensures initiation == if Classify(incoming) == ToInitiation then Some(incoming.msg) else old(initiation)
    {
      if incoming.ParsedFalsy? || incoming.ParseError? {
        return;
      }
      var m := incoming.msg;
      if m.serverStatus.Some? {
        status := Reported(m.serverStatus.value);
        uuid := m.uuid;
        signerActive := m.signerActive;
        return;
      }
      if m.status.Some? {
        data := Some(m);
        return;
      }
      if m.contractId.Some? {
        receiveContractId := m.contractId.value;
        return;
      }
      if m.lnInvoice.Some? && m.kind == HodlResKind {
        hodlInvoice := Some(m);
        return;
      }
      if m.lnInvoice.Some? {
        initiation := Some(m);
        return;
      }
    }

    /** `sendMessage`: nothing is sent while disconnected. */
    method SendMessage(m: Message)
      modifies this`sent
      ensures sent == if connection.connected then old(sent) + [m] else old(sent)
    {
      if !connection.connected {
        return;
      }
      sent := sent + [m];
    }

    /** `onopen` as the hook has it: see `SecondCloseHasNoTimer` for what
        this means for the next disconnect. */
    method OnOpen()
      modifies this`connection
      ensures connection == OpenAsWritten(old(connection))
    {
      connection := OpenAsWritten(connection);
    }

    method OnClose()
      modifies this`connection
      ensures connection == Close(old(connection))
    {
      connection := Close(connection);
    }
  }
}
