/** The hub client (`api/client.py`): a WebSocket command multiplexer.
    Commands get increasing ids and a pending slot that the receive loop
    completes when the matching response arrives; broadcasts go to a
    callback.  The transport, the clock and the cryptography are abstracted:
    each event the client reacts to (a frame, a timeout, a failed send, a
    closed stream) is a method, and the handshake runs over a given sequence
    of command outcomes. */
module Client {
  import opened Wrappers
  import opened Dicts
  import opened JsonValues
  import opened Models
  import opened Seqs
  import Constants

  datatype ClientError =
    | ConnectionError                       // `ConnectionError`
    | ErrorReply(error: Json, msg: Json)    // `CommandError` for a response carrying "error"
    | TimedOut(command: string)              // `CommandError("Command <method> timed out")`
    | SendFailed                            // the socket's `send` raised
    | Cancelled                             // the future was cancelled by `disconnect`

  predicate IsCommandError(e: ClientError) { e.ErrorReply? || e.TimedOut? }

  /** The message a timed-out command raises with. */
  function TimeoutMessage(command: string): string
  {
    "Command " + command + " timed out"
  }

  /** The JSON object `_send_command` writes: `p` is present only for
      non-empty parameters. */
  function CommandFrame(id: int, command: string, params: Json): (frame: Json)
    ensures frame.JObj?
    ensures Get(frame.fields, "id") == Some(JInt(id)) && Get(frame.fields, "m") == Some(JStr(command))
    ensures "p" in KeySet(frame.fields) <==> Truthy(params)
    ensures Truthy(params) ==> Get(frame.fields, "p") == Some(params)
  {
    var base := [("id", JInt(id)), ("m", JStr(command))];
    assert KeySet(base) == {"id", "m"} by {
      assert base[1..][1..] == [];
      assert KeySet(base[1..]) == {"m"} + KeySet(base[1..][1..]);
    }
    if Truthy(params) then
      var fs := base + [("p", params)];
      assert fs[1..][1..] == [("p", params)];
      assert Get(fs, "p") == Get(fs[1..], "p") == Get(fs[1..][1..], "p");
      KeySetAppend(base, "p", params);
      JObj(fs)
    else JObj(base)
  }

  datatype FutureStatus = Waiting | Done(response: Dict<string, Json>) | FutureCancelled

  /** The future a `_send_command` call awaits, with the method it sent. */
  datatype Slot = Slot(command: string, status: FutureStatus)

  /** An incoming WebSocket message: binary, or text that `json.loads`
      either parsed or rejected. */
  datatype Frame = Binary | Text(parsed: Option<Json>)

  /** What the receive loop did with one frame. */
  datatype Dispatch =
    | Ignored                          // binary, or invalid JSON
    | Broadcast(data: Dict<string, Json>) // handed to the broadcast callback, which returned
    | Completed(id: int)               // set the result of a waiting slot
    | Dropped                          // a response nobody waits for
    | LoopFailed(wasConnected: bool)   // an exception ended the loop

  /** The pending-table key a response's `id` selects: Python's dict lookup
      finds an int key for an equal bool or integral float too. */
  function PendingKey(j: Json): Option<int>
  {
    match j
    case JBool(b) => Some(if b then 1 else 0)
    case JInt(i) => Some(i)
    case JFloat(f) => if f == f.Floor as real then Some(f.Floor) else None
    case _ => None
  }

  class HubClient {
    /** `self._ws is not None`. */
    var hasSocket: bool
    var connected: bool
    var authorized: bool
    var role: Json
    /** `self._receive_task is not None`. */
    var hasReceiveTask: bool
    /** Whether the receive loop is still iterating over the socket. */
    var receiving: bool
    var commandId: nat
    /** The futures of every `_send_command` call still in progress. */
    var futures: map<int, Slot>
    /** The keys of `_pending_commands`. */
    var pending: set<int>
    /** The command frames written to the socket, oldest first. */
    var sent: seq<Json>

    /** Every pending id belongs to a call in progress, and every id in use
        was handed out by the counter. */
    predicate Valid()
      reads this
    {
      && pending <= futures.Keys
      && (forall id :: id in futures ==> 1 <= id <= commandId)
    }

    /** `PushokHubClient.__init__`. */
    constructor ()
      ensures Valid()
      ensures !hasSocket && !connected && !authorized && role == JInt(0)
      ensures !hasReceiveTask && !receiving
      ensures commandId == 0 && futures == map[] && pending == {} && sent == []
    {
      hasSocket := false;
      connected := false;
      authorized := false;
      role := JInt(0);
      hasReceiveTask := false;
      receiving := false;
      commandId := 0;
      futures := map[];
      pending := {};
      sent := [];
    }

    /** The first half of `_send_command`: without a socket it raises before
        an id is taken; otherwise it takes the next id, registers a waiting
        slot and writes the frame. */
    method SendCommand(command: string, params: Json) returns (r: Result<int, ClientError>)
      requires Valid()
      modifies this
      ensures Valid()
      ensures !old(hasSocket) ==>
        r == Err(ConnectionError) && commandId == old(commandId) &&
        futures == old(futures) && pending == old(pending) && sent == old(sent)
      ensures old(hasSocket) ==>
        r == Ok(old(commandId) + 1) && commandId == old(commandId) + 1 &&
        futures == old(futures)[commandId := Slot(command, Waiting)] &&
        pending == old(pending) + {commandId} &&
        sent == old(sent) + [CommandFrame(commandId, command, params)]
      ensures old(hasSocket) ==> commandId !in old(futures)
      ensures hasSocket == old(hasSocket) && connected == old(connected) && authorized == old(authorized)
      ensures role == old(role) && hasReceiveTask == old(hasReceiveTask) && receiving == old(receiving)
    {
      if !hasSocket {
        return Err(ConnectionError);
      }
      commandId := commandId + 1;
      var id := commandId;
      futures := futures[id := Slot(command, Waiting)];
      pending := pending + {id};
      sent := sent + [CommandFrame(id, command, params)];
      r := Ok(id);
    }

    /** The second half of `_send_command` once its future is resolved or
        cancelled: the `finally` removes the slot, an "error" response
        raises, any other response is returned. */
    method Finish(id: int) returns (r: Result<Dict<string, Json>, ClientError>)
      requires Valid()
      requires id in futures && !futures[id].status.Waiting?
      modifies this
      ensures Valid()
      ensures futures == old(futures) - {id} && pending == old(pending) - {id}
      ensures old(futures[id].status).FutureCancelled? ==> r == Err(Cancelled)
      ensures old(futures[id].status).Done? ==>
        var resp := old(futures[id].status).response;
        r == if "error" in KeySet(resp) then Err(ErrorReply(GetOr(resp, "error", JNull), GetOr(resp, "msg", JStr(""))))
             else Ok(resp)
      ensures commandId == old(commandId) && sent == old(sent)
      ensures hasSocket == old(hasSocket) && connected == old(connected) && authorized == old(authorized)
      ensures role == old(role) && hasReceiveTask == old(hasReceiveTask) && receiving == old(receiving)
    {
      var status := futures[id].status;
      futures := futures - {id};
      pending := pending - {id};
      if status.FutureCancelled? {
        return Err(Cancelled);
      }
      var resp := status.response;
      if "error" in KeySet(resp) {
        r := Err(ErrorReply(GetOr(resp, "error", JNull), GetOr(resp, "msg", JStr(""))));
      } else {
        r := Ok(resp);
      }
    }

    /** `asyncio.wait_for` giving up on a slot that is still waiting: the
        `except` raises a `CommandError` naming the method and the `finally`
        removes the slot. */
    method Timeout(id: int) returns (r: Result<Dict<string, Json>, ClientError>)
      requires Valid()
      requires id in futures && futures[id].status.Waiting?
      modifies this
      ensures Valid()
      ensures r == Err(TimedOut(old(futures[id].command)))
      ensures futures == old(futures) - {id} && pending == old(pending) - {id}
      ensures commandId == old(commandId) && sent == old(sent)
      ensures hasSocket == old(hasSocket) && connected == old(connected) && authorized == old(authorized)
      ensures role == old(role) && hasReceiveTask == old(hasReceiveTask) && receiving == old(receiving)
    {
      var command := futures[id].command;
      futures := futures - {id};
      pending := pending - {id};
      r := Err(TimedOut(command));
    }

    /** The socket's `send` raising inside `_send_command`: the exception
        propagates and the `finally` removes the slot. */
    method SendRaised(id: int) returns (r: Result<Dict<string, Json>, ClientError>)
      requires Valid()
      requires id in futures
      modifies this
      ensures Valid()
      ensures r == Err(SendFailed)
      ensures futures == old(futures) - {id} && pending == old(pending) - {id}
      ensures commandId == old(commandId) && sent == old(sent)
      ensures hasSocket == old(hasSocket) && connected == old(connected) && authorized == old(authorized)
      ensures role == old(role) && hasReceiveTask == old(hasReceiveTask) && receiving == old(receiving)
    {
      futures := futures - {id};
      pending := pending - {id};
      r := Err(SendFailed);
    }

    /** The receive loop's exception handlers: both flags drop, and the
        connection-lost callback fires only if the client was connected. */
    method LoopEnded() returns (wasConnected: bool)
      requires Valid()
      modifies this
      ensures Valid()
      ensures wasConnected == old(connected)
      ensures !connected && !authorized && !receiving
      ensures futures == old(futures) && pending == old(pending) && commandId == old(commandId) && sent == old(sent)
      ensures hasSocket == old(hasSocket) && role == old(role) && hasReceiveTask == old(hasReceiveTask)
    {
      wasConnected := connected;
      connected := false;
      authorized := false;
      receiving := false;
    }

    /** `websockets.ConnectionClosed` raised by the socket iterator. */
    method ConnectionClosed() returns (wasConnected: bool)
      requires Valid()
      requires receiving
      modifies this
      ensures Valid()
      ensures wasConnected == old(connected)
      ensures !connected && !authorized && !receiving
      ensures futures == old(futures) && pending == old(pending) && commandId == old(commandId) && sent == old(sent)
      ensures hasSocket == old(hasSocket) && role == old(role) && hasReceiveTask == old(hasReceiveTask)
    {
      wasConnected := LoopEnded();
    }

    /** The socket iterator ending without an exception, as it does on a
        normal close: the loop returns, no handler runs, the flags stay as
        they were and the connection-lost callback does not fire. */
    method StreamEnded()
      requires Valid()
      requires receiving
      modifies this`receiving
      ensures Valid() && !receiving
      ensures connected == old(connected) && authorized == old(authorized)
    {
      receiving := false;
    }

    /** One turn of `_receive_loop` on `frame`.  `raises` tells whether the
        broadcast callback raises on a broadcast: the exception ends the loop
        like any other. */
    method HandleFrame(frame: Frame, raises: Dict<string, Json> -> bool) returns (d: Dispatch)
      requires Valid()
      requires receiving
      modifies this
      ensures Valid()
      ensures d == FrameDispatch(frame, old(futures), old(pending), old(connected), raises)
      ensures d.Completed? ==> futures == old(futures)[d.id := Slot(old(futures[d.id].command), Done(frame.parsed.value.fields))]
      ensures !d.Completed? ==> futures == old(futures)
      ensures d.LoopFailed? ==> !connected && !authorized && !receiving
      ensures !d.LoopFailed? ==> connected == old(connected) && authorized == old(authorized) && receiving
      ensures pending == old(pending) && commandId == old(commandId) && sent == old(sent)
      ensures hasSocket == old(hasSocket) && role == old(role) && hasReceiveTask == old(hasReceiveTask)
    {
      if frame.Binary? || frame.parsed.None? {
        return Ignored;
      }
      var data := frame.parsed.value;
      if !data.JObj? {
        var was := LoopEnded();
        return LoopFailed(was);
      }
      if "broadcast" in KeySet(data.fields) {
        var b := GetOr(data.fields, "broadcast", JNull);
        if !b.JObj? || raises(b.fields) {
          var was := LoopEnded();
          return LoopFailed(was);
        }
        return Broadcast(b.fields);
      }
      var cmdId := GetOr(data.fields, "id", JNull);
      if !Truthy(cmdId) {
        return Dropped;
      }
      if cmdId.JArr? || cmdId.JObj? {
        var was := LoopEnded();
        return LoopFailed(was);
      }
      var key := PendingKey(cmdId);
      if key.Some? && key.value in pending && futures[key.value].status.Waiting? {
        futures := futures[key.value := Slot(futures[key.value].command, Done(data.fields))];
        return Completed(key.value);
      }
      return Dropped;
    }

    /** `disconnect`: both flags drop, the receive task and the socket are
        released, every pending future not yet done is cancelled and the
        pending table is emptied. */
    method Disconnect()
      requires Valid()
      modifies this
      ensures Valid()
      ensures !connected && !authorized && !hasReceiveTask && !receiving && !hasSocket
      ensures pending == {}
      ensures futures.Keys == old(futures).Keys
      ensures forall id :: id in futures ==>
        futures[id] == if id in old(pending) && old(futures[id].status).Waiting?
                       then Slot(old(futures[id].command), FutureCancelled) else old(futures[id])
      ensures commandId == old(commandId) && sent == old(sent) && role == old(role)
    {
      connected := false;
      authorized := false;
      if hasReceiveTask {
        receiving := false;
        hasReceiveTask := false;
      }
      receiving := false;
      hasSocket := false;
      futures := CancelWaiting(futures, pending);
      pending := {};
    }

    /** `connect`: a failed socket open raises without touching the socket;
        otherwise the socket, the flag and the receive task are set up and
        the handshake runs over `outcomes`.  A failed handshake drops both
        flags but leaves the socket and the receive task in place.  Each
        handshake command consumes one id. */
    method Connect(socketOk: bool, outcomes: seq<Outcome>) returns (r: Result<(), ClientError>)
      requires Valid()
      modifies this
      ensures Valid()
      ensures !socketOk ==>
        r == Err(ConnectionError) && !connected && !authorized &&
        hasSocket == old(hasSocket) && commandId == old(commandId) && role == old(role) &&
        hasReceiveTask == old(hasReceiveTask) && receiving == old(receiving)
      ensures socketOk ==>
        hasSocket && hasReceiveTask && receiving &&
        commandId == old(commandId) + |Authenticate(outcomes).sent|
      ensures socketOk && Authenticate(outcomes).result.Authorized? ==>
        r == Ok(()) && connected && authorized && role == Authenticate(outcomes).result.role
      ensures socketOk && !Authenticate(outcomes).result.Authorized? ==>
        r == Err(ConnectionError) && !connected && !authorized && role == old(role)
      ensures futures == old(futures) && pending == old(pending) && sent == old(sent)
    {
      if !socketOk {
        connected := false;
        authorized := false;
        return Err(ConnectionError);
      }
      hasSocket := true;
      connected := true;
      hasReceiveTask := true;
      receiving := true;
      var h := Authenticate(outcomes);
      commandId := commandId + |h.sent|;
      if h.result.Authorized? {
        role := h.result.role;
        authorized := true;
        r := Ok(());
      } else {
        connected := false;
        authorized := false;
        r := Err(ConnectionError);
      }
    }
  }

  /** The dispatch rule of `_receive_loop`, as a function of the frame and
      the table. */
  function FrameDispatch(frame: Frame, futures: map<int, Slot>, pending: set<int>, connected: bool,
                         raises: Dict<string, Json> -> bool): Dispatch
    requires pending <= futures.Keys
  {
    if frame.Binary? || frame.parsed.None? then Ignored
    else
      var data := frame.parsed.value;
      if !data.JObj? then LoopFailed(connected)
      else if "broadcast" in KeySet(data.fields) then
        var b := GetOr(data.fields, "broadcast", JNull);
        if b.JObj? && !raises(b.fields) then Broadcast(b.fields) else LoopFailed(connected)
      else
        var cmdId := GetOr(data.fields, "id", JNull);
        if !Truthy(cmdId) then Dropped
        else if cmdId.JArr? || cmdId.JObj? then LoopFailed(connected)
        else
          var key := PendingKey(cmdId);
          if key.Some? && key.value in pending && futures[key.value].status.Waiting? then Completed(key.value)
          else Dropped
  }

  /** A broadcast never completes a slot: it is handed on when its
      callback returns and ends the loop when the callback raises.  A
      response completes only a pending slot that still waits, under its
      own id. */
  lemma DispatchRules(frame: Frame, futures: map<int, Slot>, pending: set<int>, connected: bool,
                      raises: Dict<string, Json> -> bool)
    requires pending <= futures.Keys
    ensures frame.Binary? ==> FrameDispatch(frame, futures, pending, connected, raises) == Ignored
    ensures frame == Text(None) ==> FrameDispatch(frame, futures, pending, connected, raises) == Ignored
    ensures (frame.Text? && frame.parsed.Some? && frame.parsed.value.JObj? &&
             "broadcast" in KeySet(frame.parsed.value.fields)) ==>
      !FrameDispatch(frame, futures, pending, connected, raises).Completed?
    ensures (frame.Text? && frame.parsed.Some? && frame.parsed.value.JObj? &&
             "broadcast" in KeySet(frame.parsed.value.fields)) ==>
      var b := GetOr(frame.parsed.value.fields, "broadcast", JNull);
      FrameDispatch(frame, futures, pending, connected, raises) ==
        if b.JObj? && !raises(b.fields) then Broadcast(b.fields) else LoopFailed(connected)
    ensures FrameDispatch(frame, futures, pending, connected, raises).Completed? ==>
      var id := FrameDispatch(frame, futures, pending, connected, raises).id;
      id in pending && futures[id].status.Waiting? &&
      PendingKey(GetOr(frame.parsed.value.fields, "id", JNull)) == Some(id)
  {
  }

  /** `future.cancel()` for every pending future not yet done. */
  function CancelWaiting(futures: map<int, Slot>, pending: set<int>): (m: map<int, Slot>)
    ensures m.Keys == futures.Keys
    ensures forall id :: id in m ==>
      m[id] == if id in pending && futures[id].status.Waiting? then Slot(futures[id].command, FutureCancelled) else futures[id]
  {
    map id | id in futures :: if id in pending && futures[id].status.Waiting? then Slot(futures[id].command, FutureCancelled) else futures[id]
  }

  // ------------------------------------------------------------ handshake

  /** How one handshake command ended: a response together with the outcome
      of the crypto operation tied to that step, or an exception (a
      `CommandError` or another one). */
  datatype Outcome = Answer(response: Json, cryptoOk: bool) | Raised(commandError: bool)

  datatype AuthResult =
    | Authorized(role: Json)
    | AuthenticationError            // `AuthenticationError`
    | Failed(commandError: bool)     // another exception escaped
    | OutOfOutcomes                  // the outcome sequence ended first

  /** The commands the handshake sent, in order, and how it ended. */
  datatype Handshake = Handshake(sent: seq<string>, result: AuthResult)

  function Prepend(ms: seq<string>, h: Handshake): Handshake
  {
    Handshake(ms + h.sent, h.result)
  }

  /** `response["result"]["key"]` succeeds. */
  predicate HasKey(response: Json)
  {
    response.JObj? && Get(response.fields, "result").Some? &&
    Get(response.fields, "result").value.JObj? && "key" in KeySet(Get(response.fields, "result").value.fields)
  }

  function Escaped(o: Outcome): AuthResult
    requires o.Raised?
  {
    Failed(o.commandError)
  }

  /** `_authenticate`: pubKey (then the gateway key is installed; the
      crypto flag says whether that succeeded), challenge (then the nonce is
      decrypted; failure switches to registration), authenticate (the flag
      is whether building the signed payload succeeded, which happens before
      the command is sent); a reply without `authorized` switches to
      registration, otherwise the role is stored. */
  function Authenticate(os: seq<Outcome>): (h: Handshake)
    decreases |os|, 1
  {
    if os == [] then Handshake([], OutOfOutcomes)
    else
      var pub := os[0];
      if pub.Raised? then Handshake([Constants.CmdPubKey], Escaped(pub))
      else if !HasKey(pub.response) || !pub.cryptoOk then Handshake([Constants.CmdPubKey], Failed(false))
      else if |os| == 1 then Handshake([Constants.CmdPubKey], OutOfOutcomes)
      else
        var ch := os[1];
        var two := [Constants.CmdPubKey, Constants.CmdChallenge];
        if ch.Raised? then Handshake(two, Escaped(ch))
        else if !(ch.response.JObj? && "result" in KeySet(ch.response.fields)) then Handshake(two, Failed(false))
        else if !ch.cryptoOk then Prepend(two, Register(os[2..]))
        else if |os| == 2 then Handshake(two, OutOfOutcomes)
        else
          var au := os[2];
          if au.Answer? && !au.cryptoOk then Handshake(two, Failed(false))
          else
            var three := two + [Constants.CmdAuthenticate];
            if au.Raised? then Handshake(three, Escaped(au))
            else if !au.response.JObj? then Handshake(three, Failed(false))
            else
              var result := GetOr(au.response.fields, "result", JObj([]));
              if !result.JObj? then Handshake(three, Failed(false))
              else if !Truthy(GetOr(result.fields, "authorized", JNull)) then Prepend(three, Register(os[3..]))
              else Handshake(three, Authorized(GetOr(result.fields, "role", JInt(0))))
  }

  /** `_try_register_user`: addUser; a truthy result re-runs the whole
      handshake, a falsy one raises `AuthenticationError`, and a
      `CommandError` from either step becomes `AuthenticationError`. */
  function Register(os: seq<Outcome>): (h: Handshake)
    decreases |os|, 0
  {
    if os == [] then Handshake([], OutOfOutcomes)
    else
      var add := os[0];
      if add.Raised? then Handshake([Constants.CmdAddUser], if add.commandError then AuthenticationError else Failed(false))
      else if !add.response.JObj? then Handshake([Constants.CmdAddUser], Failed(false))
      else if !Truthy(GetOr(add.response.fields, "result", JNull)) then Handshake([Constants.CmdAddUser], AuthenticationError)
      else
        var again := Authenticate(os[1..]);
        Handshake([Constants.CmdAddUser] + again.sent,
          if again.result.Failed? && again.result.commandError then AuthenticationError else again.result)
  }

  /** A successful handshake starts with pubKey and ends with pubKey,
      challenge and authenticate, in that order. */
  lemma {:induction false} HandshakeOrder(os: seq<Outcome>)
    ensures var h := Authenticate(os);
      h.result.Authorized? ==>
        |h.sent| >= 3 && h.sent[0] == Constants.CmdPubKey &&
        h.sent[|h.sent| - 3..] == [Constants.CmdPubKey, Constants.CmdChallenge, Constants.CmdAuthenticate]
    decreases |os|
  {
    if |os| >= 2 && os[0].Answer? && os[1].Answer? {
      if !os[1].cryptoOk {
        RegisterOrder(os[2..]);
      } else if |os| >= 3 {
        RegisterOrder(os[3..]);
      }
    }
  }

  lemma {:induction false} RegisterOrder(os: seq<Outcome>)
    ensures var h := Register(os);
      h.result.Authorized? ==>
        |h.sent| >= 4 && h.sent[0] == Constants.CmdAddUser &&
        h.sent[|h.sent| - 3..] == [Constants.CmdPubKey, Constants.CmdChallenge, Constants.CmdAuthenticate]
    decreases |os|
  {
    if os != [] {
      HandshakeOrder(os[1..]);
      var again := Authenticate(os[1..]);
      var s := [Constants.CmdAddUser] + again.sent;
      if again.result.Authorized? {
        assert s[|s| - 3..] == again.sent[|again.sent| - 3..];
      }
    }
  }

  /** The pubKey reply carries a key and installing it succeeded. */
  predicate KeyAnswer(o: Outcome)
  {
    o.Answer? && HasKey(o.response) && o.cryptoOk
  }

  /** The reply is an object with a `result`. */
  predicate ResultAnswer(o: Outcome)
  {
    o.Answer? && o.response.JObj? && "result" in KeySet(o.response.fields)
  }

  /** The `result` object of an authenticate reply that is an object. */
  function AuthResultOf(o: Outcome): Json
    requires o.Answer? && o.response.JObj?
  {
    GetOr(o.response.fields, "result", JObj([]))
  }

  /** The three ways `_authenticate` goes on past a good pubKey reply and a
      challenge reply: a nonce that does not decrypt switches to
      registration after two commands; a reply to authenticate whose
      `result` has a falsy `authorized` switches to registration after
      three; a truthy `authorized` stores the role. */
  lemma HandshakeRules(os: seq<Outcome>)
    requires |os| >= 2 && KeyAnswer(os[0]) && ResultAnswer(os[1])
    ensures !os[1].cryptoOk ==>
      Authenticate(os) == Prepend([Constants.CmdPubKey, Constants.CmdChallenge], Register(os[2..]))
    ensures os[1].cryptoOk && |os| >= 3 && os[2].Answer? && os[2].cryptoOk && os[2].response.JObj? &&
            AuthResultOf(os[2]).JObj? ==>
      var three := [Constants.CmdPubKey, Constants.CmdChallenge, Constants.CmdAuthenticate];
      var authorized := GetOr(AuthResultOf(os[2]).fields, "authorized", JNull);
      && (!Truthy(authorized) ==> Authenticate(os) == Prepend(three, Register(os[3..])))
      && (Truthy(authorized) ==>
            Authenticate(os) == Handshake(three, Authorized(GetOr(AuthResultOf(os[2]).fields, "role", JInt(0)))))
  {
  }

  /** `_try_register_user` over every reply: a `CommandError` or a falsy
      `result` gives `AuthenticationError` after the one addUser; a truthy
      `result` re-runs the whole handshake after it, and a `CommandError`
      escaping that re-run becomes `AuthenticationError` too.  So no
      `CommandError` ever leaves registration. */
  lemma RegisterRules(os: seq<Outcome>)
    requires os != []
    ensures os[0].Raised? && os[0].commandError ==> Register(os) == Handshake([Constants.CmdAddUser], AuthenticationError)
    ensures os[0].Answer? && os[0].response.JObj? && !Truthy(GetOr(os[0].response.fields, "result", JNull)) ==>
      Register(os) == Handshake([Constants.CmdAddUser], AuthenticationError)
    ensures os[0].Answer? && os[0].response.JObj? && Truthy(GetOr(os[0].response.fields, "result", JNull)) ==>
      var again := Authenticate(os[1..]);
      && Register(os).sent == [Constants.CmdAddUser] + again.sent
      && Register(os).result == (if again.result == Failed(true) then AuthenticationError else again.result)
    ensures Register(os).result != Failed(true)
  {
  }

  /** Only a handshake that got that far can succeed: a successful one sent
      one command per outcome it used, never more than it was given. */
  lemma {:induction false} HandshakeBounded(os: seq<Outcome>)
    ensures |Authenticate(os).sent| <= |os|
    ensures |Register(os).sent| <= |os|
    decreases |os|
  {
    if |os| >= 2 {
      HandshakeBounded(os[2..]);
    }
    if |os| >= 3 {
      HandshakeBounded(os[3..]);
    }
    if |os| >= 1 {
      HandshakeBounded(os[1..]);
    }
  }

  function Ok3(): seq<Outcome>
  {
    [Answer(JObj([("result", JObj([("key", JStr("k"))]))]), true),
     Answer(JObj([("result", JStr("nonce"))]), true),
     Answer(JObj([("result", JObj([("authorized", JBool(true)), ("role", JInt(1))]))]), true)]
  }

  function Undecryptable(): seq<Outcome>
  {
    [Answer(JObj([("result", JObj([("key", JStr("k"))]))]), true),
     Answer(JObj([("result", JStr("nonce"))]), false)]
  }

  function Registered(): Outcome
  {
    Answer(JObj([("result", JBool(true))]), true)
  }

  lemma HandshakeOk3()
    ensures Authenticate(Ok3()) == Handshake([Constants.CmdPubKey, Constants.CmdChallenge, Constants.CmdAuthenticate], Authorized(JInt(1)))
  {
    var os := Ok3();
    assert HasKey(os[0].response);
    var r := GetOr(os[2].response.fields, "result", JObj([]));
    assert r == JObj([("authorized", JBool(true)), ("role", JInt(1))]);
    assert GetOr(r.fields, "authorized", JNull) == JBool(true);
    assert GetOr(r.fields, "role", JInt(0)) == JInt(1) by {
      assert r.fields[1..][0].0 == "role";
    }
  }

  /** Registration is retried for as long as the hub accepts it: two failed
      decryptions, each followed by a successful addUser, still end in a
      full handshake. */
  lemma RegistrationIsNotBounded()
    ensures var h := Authenticate(Undecryptable() + [Registered()] + Undecryptable() + [Registered()] + Ok3());
      h.result == Authorized(JInt(1)) &&
      h.sent == [Constants.CmdPubKey, Constants.CmdChallenge, Constants.CmdAddUser,
                 Constants.CmdPubKey, Constants.CmdChallenge, Constants.CmdAddUser,
                 Constants.CmdPubKey, Constants.CmdChallenge, Constants.CmdAuthenticate]
  {
    var u := Undecryptable();
    var g := Registered();
    var os := u + [g] + u + [g] + Ok3();
    assert HasKey(u[0].response);
    assert os[0] == u[0] && os[1] == u[1];
    var t1 := os[2..];
    assert t1 == [g] + u + [g] + Ok3();
    assert t1[0] == g;
    var t2 := t1[1..];
    assert t2 == u + [g] + Ok3();
    assert t2[0] == u[0] && t2[1] == u[1];
    var t3 := t2[2..];
    assert t3 == [g] + Ok3();
    assert t3[0] == g;
    assert t3[1..] == Ok3();
    HandshakeOk3();
    assert GetOr(g.response.fields, "result", JNull) == JBool(true);
    var ok := Authenticate(Ok3());
    var r3 := Register(t3);
    assert r3 == Handshake([Constants.CmdAddUser] + ok.sent, ok.result);
    var a2 := Authenticate(t2);
    assert a2 == Prepend([Constants.CmdPubKey, Constants.CmdChallenge], r3);
    var r1 := Register(t1);
    assert r1 == Handshake([Constants.CmdAddUser] + a2.sent, a2.result);
    assert Authenticate(os) == Prepend([Constants.CmdPubKey, Constants.CmdChallenge], r1);
  }

  // ------------------------------------------------------------ high-level API

  /** `get_devices`: every entry of `result` that fails to decode is
      skipped; a `result` that cannot be iterated raises. */
  function DevicesFromResponse(response: Dict<string, Json>): (r: Option<seq<DeviceDescription>>)
    ensures Get(response, "result").None? ==> r == Some([])
  {
    match Iterate(GetOr(response, "result", JArr([])))
    case None => None
    case Some(items) => Some(FilterMap(items, (j: Json) => DeviceFromDict(j).Ok?, DeviceOf))
  }

  function DeviceOf(j: Json): DeviceDescription
  {
    if DeviceFromDict(j).Ok? then DeviceFromDict(j).value
    else DeviceDescription([], JNull, JNull, JNull, None, JNull, JNull, JNull, JNull, JNull, JNull, JNull)
  }

  /** Exactly the decodable entries are listed. */
  lemma DevicesListed(response: Dict<string, Json>, items: seq<Json>)
    requires Get(response, "result") == Some(JArr(items))
    ensures DevicesFromResponse(response).Some?
    ensures forall i :: 0 <= i < |items| && DeviceFromDict(items[i]).Ok? ==>
      DeviceFromDict(items[i]).value in DevicesFromResponse(response).value
    ensures forall d :: d in DevicesFromResponse(response).value ==>
      exists i :: 0 <= i < |items| && DeviceFromDict(items[i]) == Ok(d)
  {
    FilterMapSpec(items, (j: Json) => DeviceFromDict(j).Ok?, DeviceOf);
  }

  /** `get_state`, `get_format`, `get_adapter`: the decoder applied to
      `result`, which defaults to an empty dict. */
  function StateFromResponse(deviceId: string, response: Dict<string, Json>): (s: DeviceState)
    ensures s == DeviceStateFromDict(deviceId, GetOr(response, "result", JObj([])))
    ensures Get(response, "result").None? ==> s.properties == [] && s.adapterCrc == JNull
  {
    DeviceStateFromDict(deviceId, GetOr(response, "result", JObj([])))
  }

  function FormatFromResponse(deviceId: string, response: Dict<string, Json>): (f: DeviceFormat)
    ensures f == DeviceFormatFromDict(deviceId, GetOr(response, "result", JObj([])))
    ensures Get(response, "result").None? ==> f.fields == []
  {
    DeviceFormatFromDict(deviceId, GetOr(response, "result", JObj([])))
  }

  /** `get_attributes`: a string `result` is parsed first (`parse` stands
      for `json.loads`, `None` for its error). */
  function AttributesFromResponse(response: Dict<string, Json>, parse: string -> Option<Json>): (r: Option<Result<DeviceAttributes, DecodeError>>)
    ensures Get(response, "result").None? ==> r == Some(Ok(DeviceAttributes(JNull, JArr([]), [])))
  {
    var result := GetOr(response, "result", JObj([]));
    if result.JStr? then
      match parse(result.s)
      case None => None
      case Some(j) => Some(AttributesFromDict(j))
    else Some(AttributesFromDict(result))
  }

  /** `set_state`'s parameters and its result, which defaults to `False`. */
  function SetStateParams(deviceId: string, field: int, value: Json): (p: Json)
    ensures p.JObj? && Truthy(p)
    ensures Get(p.fields, "value") == Some(value)
  {
    var fs := [("id", JStr(deviceId)), ("type", JStr(Constants.EntityTypeZigbee)), ("field", JInt(field)), ("value", value)];
    assert fs[1..][1..][1..] == [("value", value)];
    assert Get(fs, "value") == Get(fs[1..], "value") == Get(fs[1..][1..], "value") == Get(fs[1..][1..][1..], "value");
    JObj(fs)
  }

  function SetStateResult(response: Dict<string, Json>): (ok: Json)
    ensures Get(response, "result").None? ==> ok == JBool(false)
  {
    GetOr(response, "result", JBool(false))
  }
}
