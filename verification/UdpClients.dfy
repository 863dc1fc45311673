/** The UDP client as the program is written: an object whose methods update its fields, with the
    retransmission loop nested in the poll loop. Every method is proved to do what the flat machine of
    UdpSession does, so the theorems about that machine are theorems about this object. */
module UdpClients {
  import opened Chat
  import opened UserLine
  import opened UdpWire
  import opened UdpMessages
  import opened UdpSession
  import opened UdpInvariants
  import opened UdpGate

  lemma OwnMessages(id: Id, name: string)
    ensures UdpEncode(Outgoing(Bye, "BYE", ""), id, "BYE") == ByeBytes(id)
    ensures UdpEncode(Outgoing(Confirm, "", ""), id, "") == ConfirmBytes(id)
    ensures UdpEncode(Outgoing(CustomErr, ERR_TEXT, name), id, ERR_TEXT) == ErrBytes(id, name)
    ensures Outgoing(Bye, "BYE", "").typ == Bye
  {
    CheckOwn(Bye, "BYE", "");
    CheckOwn(Confirm, "", "");
    assert [UDP_BYE] + IdBytes(id) + "" == ByeBytes(id);
  }

  class UdpClient {
    const script: seq<Turn>     // the environment, one turn per iteration of a loop
    const max: nat              // max_udp_retransmission
    var pos: nat                // turns consumed
    var running: bool           // false once exit_program has been entered

    var dname: string
    var clientState: FsmState
    var replyMsgSent: bool
    var msgCounter: nat
    var confirmMsgSent: bool
    var changeServerPort: bool
    var serverPort: Port
    var destPort: Port
    var confirmIds: seq<Id>
    var replyIds: seq<Id>
    var seenIds: seq<Id>
    var stdinReady: bool

    ghost var mode: Mode
    ghost var log: seq<Obs>

    constructor (script: seq<Turn>, max: nat, dest: Port, stdinReady: bool)
      ensures this.script == script && this.max == max && pos == 0 && running
      ensures State() == Init(dest, stdinReady)
    {
      this.script, this.max, pos, running := script, max, 0, true;
      dname, clientState, replyMsgSent, msgCounter := "", StartState, false, 0;
      confirmMsgSent, changeServerPort, serverPort, destPort := false, true, 0xFFFF, dest;
      confirmIds, replyIds, seenIds := [], [], [];
      this.stdinReady, mode, log := stdinReady, Polling, [];
    }

    ghost function State(): Session
      reads this
    {
      Session(mode, clientState, dname, replyMsgSent, msgCounter, confirmMsgSent, changeServerPort,
              serverPort, destPort, confirmIds, replyIds, seenIds, stdinReady, log)
    }

    /** The object is where the flat machine is after running from s over the turns since from. */
    ghost predicate Follows(s: Session, from: nat)
      reads this
    {
      from <= pos <= |script| && State() == Run(s, script, max, from, pos)
    }

    /** As Follows, for an operation that consumes no turn unless it leaves the program. */
    ghost predicate Reaches(s: Session, from: nat)
      reads this
    {
      && Follows(s, from) && running == Running(State())
      && (if running then pos == from else pos == |script| || mode.Exited?)
    }

    /** As Follows, for an operation after which the poll loop goes on unless the script or the program
        has come to its end. */
    ghost predicate Settles(s: Session, from: nat)
      reads this
    {
      && Follows(s, from) && running == Running(State())
      && (pos == |script| || mode.Polling? || mode.Exited?)
    }

    method SendMsg(msg: UdpMessage, ghost typ: MsgType, ghost num: nat)
      modifies this`log
      ensures State() == Send(old(State()), typ, num, msg.udpBuffer)
    {
      log := log + [Sent(typ, num, msg.udpBuffer, destPort)];
    }

    method ShowLines(shown: seq<Shown>)
      modifies this`log
      ensures State() == Show(old(State()), shown)
    {
      if shown != [] {
        log := log + [Console(shown[0])];
      }
    }

    method SendConfirmMsg(id: Id)
      modifies this`log
      ensures State() == SendConfirm(old(State()), id)
    {
      var confirmMsg := new UdpMessage("", MsgType.Confirm, id);
      confirmMsg.ProcessOutgoing();
      OwnMessages(id, "");
      SendMsg(confirmMsg, MsgType.Confirm, id);
    }

    method SendByeMsg()
      modifies this`log
      ensures State() == Send(old(State()), MsgType.Bye, msgCounter, ByeBytes(ToId(msgCounter)))
    {
      hide Summary;
      var byeMsg := new UdpMessage("BYE", MsgType.Bye, ToId(msgCounter));
      byeMsg.ProcessOutgoing();
      OwnMessages(ToId(msgCounter), "");
      SendMsg(byeMsg, MsgType.Bye, msgCounter);
    }

    /** A received datagram whose type and id have been read. */
    method ReceiveHeader(packet: Packet, ids: seq<Id>) returns (inbound: UdpMessage, skip: bool)
      ensures fresh(inbound) && fresh(inbound.base) && inbound.Holds(packet)
      ensures inbound.Value() == Header(packet) && skip == IsRepeat(packet, ids)
    {
      hide Header, IsRepeat;
      inbound := new UdpMessage("", ToBeDecided, NO_ID);
      inbound.Receive(packet);
      skip := inbound.ValidateUniqueId(|packet|, ids, packet);
    }

    /** One receive of the wait for the confirmation of BYE. */
    method FarewellTurn(turn: Turn, code: int, retries: nat) returns (retries': nat, done: bool)
      requires mode == Leaving(code, retries)
      modifies this`log, this`mode
      ensures State() == StepLeaving(old(State()), turn, max)
      ensures mode == if done then Exited(code) else Leaving(code, retries')
    {
      hide Summary, Record, Header;
      retries', done := retries, false;
      match turn.recv {
      case TimedOut =>
        if retries == max {
          done := true;
        } else {
          retries' := retries + 1;
        }
      case RecvFailed =>
        done := true;
      case Datagram(packet, port) =>
        var inbound, _ := ReceiveHeader(packet, []);
        log := log + [Got(packet, port)];
        done := inbound.base.typ == MsgType.Confirm && inbound.refMessageId == msgCounter;
      }
      mode := if done then Exited(code) else Leaving(code, retries');
    }

    /** exit_program: an optional BYE and the bounded wait for its confirmation. It does not return to its
        caller in the original; here running becomes false and the callers stop. */
    method ExitProgram(sendBye: bool, code: int)
      requires running && Running(State()) && pos <= |script|
      modifies this
      ensures !running && Reaches(Leave(old(State()), sendBye, code), old(pos))
    {
      hide Run, Step, Summary, ByeBytes, UdpEncode, Outgoing;
      ghost var s := Leave(State(), sendBye, code);
      running := false;
      if !sendBye {
        mode := Exited(code);
        RunNone(s, script, max, pos);
        return;
      }
      SendByeMsg();
      mode := Leaving(code, 0);
      WaitForBye(code);
    }

    method WaitForBye(code: int)
      requires mode == Leaving(code, 0) && pos <= |script|
      modifies this`pos, this`mode, this`log
      ensures Follows(old(State()), old(pos)) && !Running(State()) && (pos == |script| || mode.Exited?)
    {
      hide Step, Summary;
      var retries, done := 0, false;
      while pos < |script| && !done
        invariant Follows(old(State()), old(pos))
        invariant mode == if done then Exited(code) else Leaving(code, retries)
      {
        ghost var before := State();
        retries, done := FarewellTurn(script[pos], code, retries);
        pos := pos + 1;
        StepCases(before, script[pos - 1], max);
      }
    }

    /** Confirms a received message and, if asked to, leaves. */
    method SendConfirmExit(inbound: UdpMessage, exit: bool)
      requires running && Running(State()) && pos <= |script|
      modifies this
      ensures !exit ==> running && pos == old(pos) && mode == old(mode)
      ensures !exit ==> State() == SendConfirm(old(State()), inbound.messageId)
      ensures exit ==> !running && Reaches(Leave(SendConfirm(old(State()), inbound.messageId), true,
        if inbound.base.typ == MsgType.Bye then EXIT_SUCCESS else EXIT_FAILURE), old(pos))
    {
      hide Summary, Step, ConfirmBytes, Leave, Run;
      SendConfirmMsg(inbound.messageId);
      if exit {
        if inbound.base.typ == MsgType.Bye {
          ExitProgram(true, EXIT_SUCCESS);
          return;
        }
        ExitProgram(true, EXIT_FAILURE);
      }
    }

    method SendErrMsg() returns (errMsg: UdpMessage)
      modifies this`log
      ensures State() == Send(old(State()), MsgType.Err, msgCounter, ErrBytes(ToId(msgCounter), dname))
    {
      hide Summary, Record;
      errMsg := new UdpMessage(ERR_TEXT, CustomErr, ToId(msgCounter));
      errMsg.base.displayName := dname;
      errMsg.ProcessOutgoing();
      OwnMessages(ToId(msgCounter), dname);
      SendMsg(errMsg, MsgType.Err, msgCounter);
    }

    /** Reports an error to the server and leaves. */
    method SendErrorExit()
      requires running && Running(State()) && pos <= |script|
      modifies this
      ensures !running && Reaches(ErrorExit(old(State())), old(pos))
      decreases 1
    {
      hide Summary, Record, Step, ErrBytes, Leave, Run;
      var errMsg := SendErrMsg();
      msgCounter := msgCounter + 1;
      confirmMsgSent := true;
      HandleTimeout(errMsg, true);
    }

    /** A datagram in the retransmission loop: the awaited CONFIRM, or a matter for fsm_logic_handler. */
    method WaitPacket(msg: UdpMessage, packet: Packet, port: Port) returns (done: bool)
      requires running && pos <= |script| && mode.Waiting? && mode.id == msg.messageId
      modifies this
      ensures var s := old(State());
        var t := Emit(s, Got(packet, port));
        if s.confirmPending && IsConfirm(packet, s.mode.id) then
          done && running && pos == old(pos) && State() == t.(confirmPending := false, mode := Polling)
        else !done && Reaches(Handle(t, Header(packet), packet, IsRepeat(packet, s.seen)), old(pos))
      decreases 5
    {
      hide Summary, Record, Step, Handle, Header, IsRepeat, Run;
      var inbound, skip := ReceiveHeader(packet, seenIds);
      log := log + [Got(packet, port)];
      if confirmMsgSent {
        if inbound.base.typ == MsgType.Confirm && inbound.refMessageId == msg.messageId {
          confirmMsgSent := false;
          mode := Polling;
          return true;
        }
      }
      FsmLogicHandler(skip, inbound, |packet|, packet);
      done := false;
    }

    /** One receive of the retransmission loop. */
    method WaitTurn(msg: UdpMessage, turn: Turn, retries: nat) returns (retries': nat, done: bool)
      requires running && pos <= |script| && mode == Waiting(msg.messageId, msg.udpBuffer, retries)
      modifies this
      ensures Reaches(StepWaiting(old(State()), turn, max), old(pos))
      ensures running ==> mode == if done then Polling else Waiting(msg.messageId, msg.udpBuffer, retries')
      decreases 6
    {
      hide Summary, Step, Leave, Handle, Header, IsRepeat, IsConfirm;
      retries', done := retries, false;
      match turn.recv {
      case TimedOut =>
        if retries == max {
          ExitProgram(true, EXIT_FAILURE);
          return;
        }
        retries' := retries + 1;
        log := log + [Resent(msg.udpBuffer, destPort)];
        mode := Waiting(msg.messageId, msg.udpBuffer, retries');
      case RecvFailed =>
        done := true;
        mode := Polling;
      case Datagram(packet, port) =>
        ghost var t := Emit(State(), Got(packet, port));
        HandleEffect(t, packet, IsRepeat(packet, seenIds));
        done := WaitPacket(msg, packet, port);
      }
    }

    /** Waits for the confirmation of msg and retransmits it. */
    method HandleTimeout(msg: UdpMessage, exit: bool)
      requires running && Running(State()) && pos <= |script|
      modifies this
      ensures exit ==> !running && Reaches(Leave(old(State()), true, EXIT_FAILURE), old(pos))
      ensures !exit ==> Settles(old(State()).(mode := Waiting(msg.messageId, msg.udpBuffer, 0)), old(pos))
      decreases if exit then 0 else 7
    {
      hide Summary, Step, StepWaiting, Leave, Run;
      if exit {
        ExitProgram(true, EXIT_FAILURE);
        return;
      }
      mode := Waiting(msg.messageId, msg.udpBuffer, 0);
      ghost var s := State();
      var retries, done := 0, false;
      RunNone(s, script, max, pos);
      while pos < |script| && running && !done
        invariant old(pos) <= pos <= |script| && running == Running(State())
        invariant Follows(s, old(pos))
        invariant running ==> mode == if done then Polling else Waiting(msg.messageId, msg.udpBuffer, retries)
        invariant !running ==> pos == |script| || mode.Exited?
        decreases |script| - pos
      {
        ghost var before, p := State(), pos;
        var turn := script[pos];
        pos := pos + 1;
        retries, done := WaitTurn(msg, turn, retries);
        StepCases(before, turn, max);
        RunStep(s, script, max, old(pos), p, pos);
      }
    }

    /** Matches a REPLY against the pending request; prints it if it is the answer. */
    method PrintReply(inbound: UdpMessage, replyId: int) returns (answered: bool)
      requires replyId == (if replyIds == [] then -1 else replyIds[0])
      modifies this`replyIds, this`replyMsgSent, this`log
      ensures State() == TakeReply(old(State()), inbound.Value())
      ensures answered == Answers(old(State()), inbound.Value())
    {
      hide Summary;
      answered := false;
      if replyMsgSent {
        if replyId == inbound.refMessageId {
          replyIds := replyIds[1..];
          log := log + [Printed(inbound.messageId, inbound.refMessageId, inbound.base.message)];
          replyMsgSent := false;
          answered := true;
        }
      }
    }

    /** A REPLY in the open state: remembered, matched against the pending request, confirmed. */
    method HandleReply(inbound: UdpMessage, replyId: int)
      requires running && Running(State()) && pos <= |script|
      requires replyId == (if replyIds == [] then -1 else replyIds[0])
      modifies this
      ensures running && pos == old(pos) && mode == old(mode)
      ensures var s, m := old(State()), inbound.Value();
        State() == SendConfirm(TakeReply(s.(seen := s.seen + [m.id]), m), m.id)
    {
      hide Summary, SendConfirm, TakeReply, Answers;
      seenIds := seenIds + [inbound.messageId];
      var _ := PrintReply(inbound, replyId);
      SendConfirmExit(inbound, false);
    }

    method SwitchServerPort()
      modifies this`destPort, this`changeServerPort
      ensures State() == SwitchPort(old(State()))
    {
      if replyMsgSent {
        if changeServerPort {
          destPort := serverPort;
          changeServerPort := false;
        }
      }
    }

    /** A REPLY in the authentication state, which may also switch the port and open the session. */
    method OpenOnReply(inbound: UdpMessage, replyId: int)
      requires replyId == (if replyIds == [] then -1 else replyIds[0])
      modifies this`destPort, this`changeServerPort, this`replyIds, this`replyMsgSent, this`log, this`clientState
      ensures State() == TakeAuthReply(old(State()), inbound.Value())
    {
      hide Summary, Record, TakeReply;
      SwitchServerPort();
      var answered := PrintReply(inbound, replyId);
      if answered && inbound.base.typ == ReplyOk {
        clientState := OpenState;
      }
    }

    method HandleAuthReply(inbound: UdpMessage, replyId: int)
      requires running && Running(State()) && pos <= |script| && clientState == AuthState
      requires replyId == (if replyIds == [] then -1 else replyIds[0])
      requires inbound.base.typ == ReplyOk || inbound.base.typ == ReplyNok
      modifies this
      ensures running && pos == old(pos) && mode == old(mode)
      ensures State() == HandleAuth(old(State()), inbound.Value())
    {
      hide Summary, Record, SendConfirm, TakeAuthReply;
      seenIds := seenIds + [inbound.messageId];
      OpenOnReply(inbound, replyId);
      SendConfirmExit(inbound, false);
    }

    method HandleConfirm(inbound: UdpMessage, confirmId: int)
      requires confirmId == (if confirmIds == [] then -1 else confirmIds[0])
      modifies this`confirmIds, this`confirmMsgSent
      ensures State() == TakeConfirm(old(State()), inbound.refMessageId)
    {
      if confirmId == inbound.refMessageId {
        confirmIds := confirmIds[1..];
        confirmMsgSent := false;
      }
    }

    /** fsm_logic_handler in the authentication state, on the decoded message. */
    method HandleAuthMsg(inbound: UdpMessage, confirmId: int, replyId: int)
      requires running && Running(State()) && pos <= |script| && clientState == AuthState
      requires confirmId == (if confirmIds == [] then -1 else confirmIds[0])
      requires replyId == (if replyIds == [] then -1 else replyIds[0])
      modifies this
      ensures Reaches(HandleAuth(old(State()), inbound.Value()), old(pos))
      decreases 2
    {
      hide Summary, Step, Leave, ErrorExit, SendConfirm, TakeConfirm, TakeReply, SwitchPort;
      if inbound.base.typ == MsgType.Confirm {
        HandleConfirm(inbound, confirmId);
      } else if inbound.base.typ == ReplyOk || inbound.base.typ == ReplyNok {
        HandleAuthReply(inbound, replyId);
      } else if inbound.base.typ == MsgType.Err {
        SendConfirmExit(inbound, true);
      } else if inbound.base.typ == MsgType.Msg {
        SendConfirmMsg(inbound.messageId);
        SendErrorExit();
      }
    }

    /** Messages that end an open session. */
    method HandleOpenExit(inbound: UdpMessage, bytesRx: nat, ghost p: Packet)
      requires running && Running(State()) && pos <= |script| && clientState == OpenState
      requires inbound.Holds(p) && bytesRx == |p|
      requires inbound.base.typ !in {MsgType.Confirm, ReplyOk, ReplyNok, MsgType.Msg}
      modifies this, inbound.base, inbound`refMessageId
      ensures Reaches(HandleOpen(old(State()), old(inbound.Value()), p), old(pos))
      decreases 2
    {
      hide Summary, Record, Step, Leave, ErrorExit, SendConfirm, Show, Body, BodyShows, Run;
      var id := inbound.messageId;
      if inbound.base.typ == MsgType.Err {
        var shown := inbound.ProcessInbound(bytesRx, p);
        ShowLines(shown);
        SendConfirmMsg(id);
        ExitProgram(true, EXIT_FAILURE);
      } else if inbound.base.typ == MsgType.Bye {
        var _ := inbound.ProcessInbound(bytesRx, p);
        SendConfirmMsg(id);
        ExitProgram(false, EXIT_FAILURE);
      } else {
        var _ := inbound.ProcessInbound(bytesRx, p);
        SendConfirmMsg(ToId(msgCounter));
        SendErrorExit();
      }
    }

    /** fsm_logic_handler in the open state, on the decoded message. */
    method HandleOpenMsg(inbound: UdpMessage, confirmId: int, replyId: int, bytesRx: nat, ghost p: Packet)
      requires running && Running(State()) && pos <= |script| && clientState == OpenState
      requires inbound.Holds(p) && bytesRx == |p|
      requires confirmId == (if confirmIds == [] then -1 else confirmIds[0])
      requires replyId == (if replyIds == [] then -1 else replyIds[0])
      modifies this, inbound.base, inbound`refMessageId
      ensures Reaches(HandleOpen(old(State()), old(inbound.Value()), p), old(pos))
      decreases 3
    {
      hide Summary, Record, Step, Leave, ErrorExit, SendConfirm, TakeConfirm, TakeReply, Show, Body, BodyShows;
      if inbound.base.typ == MsgType.Confirm {
        HandleConfirm(inbound, confirmId);
      } else if inbound.base.typ == ReplyOk || inbound.base.typ == ReplyNok {
        HandleReply(inbound, replyId);
      } else if inbound.base.typ == MsgType.Msg {
        seenIds := seenIds + [inbound.messageId];
        SendConfirmExit(inbound, false);
      } else {
        HandleOpenExit(inbound, bytesRx, p);
      }
    }

    /** Handles a received message whose header is read; skip says that its id was handled before. */
    method FsmLogicHandler(skip: bool, inbound: UdpMessage, bytesRx: nat, ghost p: Packet)
      requires running && Running(State()) && pos <= |script|
      requires inbound.Holds(p) && bytesRx == |p| && inbound.Value() == Header(p)
      modifies this, inbound.base, inbound`refMessageId
      ensures Reaches(Handle(old(State()), Header(p), p, skip), old(pos))
      decreases 4
    {
      hide Summary, Step, Leave, Body, BodyShows, Header, HandleAuth, HandleOpen;
      if skip {
        return;
      }
      var shown := inbound.ProcessInbound(bytesRx, p);
      ShowLines(shown);
      var confirmId := if confirmIds == [] then -1 else confirmIds[0];
      var replyId := if replyIds == [] then -1 else replyIds[0];
      match clientState {
      case StartState =>
        if inbound.base.typ != ToBeDecided {
          ExitProgram(true, EXIT_FAILURE);
        }
      case AuthState => HandleAuthMsg(inbound, confirmId, replyId);
      case OpenState => HandleOpenMsg(inbound, confirmId, replyId, bytesRx, p);
      }
    }

    /** recvfrom in the poll loop; it records the source port. The result is false after a timeout. */
    method AcceptMsg(inbound: UdpMessage, recv: Recv) returns (accepted: bool)
      requires running && Running(State()) && pos <= |script| && inbound.buffer.Length == BUFFER_SIZE
      modifies this, inbound.buffer
      ensures match recv
        case TimedOut => !accepted && running && pos == old(pos) && State() == old(State())
        case RecvFailed => !accepted && !running && Reaches(Leave(old(State()), false, EXIT_FAILURE), old(pos))
        case Datagram(packet, port) =>
          && accepted && running && pos == old(pos) && inbound.Holds(packet)
          && State() == Emit(old(State()).(serverPort := port), Got(packet, port))
    {
      hide Summary, Run, Leave;
      match recv {
      case TimedOut =>
        accepted := false;
      case RecvFailed =>
        ExitProgram(false, EXIT_FAILURE);
        accepted := false;
      case Datagram(packet, port) =>
        inbound.Receive(packet);
        log := log + [Got(packet, port)];
        serverPort := port;
        accepted := true;
      }
    }

    /** The poll loop's checks on a datagram, and its handling. */
    method ReceiveMsg(inbound: UdpMessage, packet: Packet)
      requires running && Running(State()) && pos <= |script| && inbound.Holds(packet)
      requires inbound.messageId == NO_ID && inbound.refMessageId == 0 && inbound.base.message == ""
      modifies this, inbound, inbound.base
      ensures Reaches(Receive(old(State()), packet), old(pos))
    {
      hide Summary, Leave, ErrorExit, SendConfirm, Dispatch, Header, Body, BodyShows, IsRepeat, Show, Run;
      var skip := inbound.ValidateUniqueId(|packet|, seenIds, packet);
      assert inbound.Value() == Header(packet);
      BodyKinds(packet);
      if !skip {
        if inbound.base.typ == InvalidMsg || inbound.base.typ == MsgType.Err {
          var id := inbound.messageId;
          if inbound.base.typ == MsgType.Err {
            var shown := inbound.ProcessInbound(|packet|, packet);
            ShowLines(shown);
            SendConfirmMsg(id);
            ExitProgram(true, EXIT_FAILURE);
            return;
          }
          var _ := inbound.ProcessInbound(|packet|, packet);
          SendConfirmMsg(ToId(msgCounter));
          SendErrorExit();
          return;
        }
        if clientState == StartState && inbound.base.typ != ToBeDecided {
          SendConfirmMsg(inbound.messageId);
          SendErrorExit();
          return;
        } else if clientState == AuthState {
          if inbound.base.typ == MsgType.Bye || inbound.base.typ == MsgType.Msg {
            SendConfirmMsg(inbound.messageId);
            SendErrorExit();
            return;
          }
        }
      }
      FsmLogicHandler(skip, inbound, |packet|, packet);
    }

    /** First transmission of a user message, then the wait for its confirmation. */
    method TransmitMsg(msg: UdpMessage)
      requires running && mode.Polling? && pos <= |script|
      requires msgCounter > 0 && msg.messageId == ToId(msgCounter - 1)
      modifies this
      ensures Settles(Transmit(old(State()), msg.base.typ, old(msgCounter) - 1, msg.udpBuffer), old(pos))
    {
      hide Summary, Record, Run;
      confirmIds := confirmIds + [msg.messageId];
      confirmMsgSent := true;
      SendMsg(msg, msg.base.typ, msgCounter - 1);
      HandleTimeout(msg, false);
    }

    /** A message that asks for a REPLY. */
    method RequestMsg(msg: UdpMessage)
      requires running && mode.Polling? && pos <= |script|
      requires msgCounter > 0 && msg.messageId == ToId(msgCounter - 1)
      modifies this
      ensures Settles(Request(old(State()), msg.base.typ, old(msgCounter) - 1, msg.udpBuffer), old(pos))
    {
      hide Summary, Run, Transmit;
      replyIds := replyIds + [msg.messageId];
      replyMsgSent := true;
      TransmitMsg(msg);
    }

    /** A message that is ready to be sent, under the number just before the counter. */
    method DeliverMsg(msg: UdpMessage)
      requires running && mode.Polling? && pos <= |script|
      requires msgCounter > 0 && msg.messageId == ToId(msgCounter - 1)
      modifies this
      ensures Settles(Deliver(old(State()), msg.base.typ, old(msgCounter) - 1, msg.udpBuffer), old(pos))
    {
      hide Summary, Record, Step, Run, Transmit, Request;
      RunNone(State(), script, max, pos);
      match clientState {
      case StartState =>
        if msg.base.typ == MsgType.Auth {
          clientState := AuthState;
          RequestMsg(msg);
        }
      case AuthState =>
        if msg.base.typ == MsgType.Auth {
          RequestMsg(msg);
        }
      case OpenState =>
        if msg.base.typ == MsgType.Join {
          RequestMsg(msg);
        } else if msg.base.typ != MsgType.Auth {
          TransmitMsg(msg);
        }
      }
    }

    /** A parsed and encoded user message. */
    method SubmitMsg(msg: UdpMessage, ghost o: Outcome)
      requires running && mode.Polling? && pos <= |script|
      requires msg.messageId == ToId(msgCounter)
      requires msg.base.typ == o.typ && msg.base.readyToSend == o.ready && msg.base.displayName == o.name
      modifies this
      ensures Settles(Submit(old(State()), o, msg.udpBuffer), old(pos))
    {
      hide Summary, Record, Step, Run, Deliver;
      if msg.base.typ == MsgType.Auth || msg.base.typ == MsgType.Rename {
        dname := msg.base.displayName;
      }
      if msg.base.readyToSend {
        msgCounter := msgCounter + 1;
        DeliverMsg(msg);
      } else {
        RunNone(State(), script, max, pos);
      }
    }

    /** A line from the user. */
    method UserMsg(line: string)
      requires running && mode.Polling? && pos <= |script|
      modifies this
      ensures Settles(UserInput(old(State()), line), old(pos))
    {
      hide Summary, Submit, Run, Grammar, UdpEncode;
      CheckIsGrammar(line, dname);
      var msg := new UdpMessage(line, UserCmd, ToId(msgCounter));
      msg.base.displayName := dname;
      msg.ProcessOutgoing();
      SubmitMsg(msg, Grammar(line, dname));
    }

    /** A POLLIN of the socket. */
    method SocketTurn(recv: Recv)
      requires running && mode.Polling? && pos <= |script|
      modifies this
      ensures Settles(SocketStep(old(State()), recv), old(pos))
    {
      hide Summary, Record, Step, Leave, Receive;
      var inbound := new UdpMessage("", ToBeDecided, NO_ID);
      var accepted := AcceptMsg(inbound, recv);
      if accepted {
        ReceiveEffect(State(), recv.packet);
        ReceiveMsg(inbound, recv.packet);
      }
    }

    /** One iteration of the poll loop. */
    method ChatTurn(turn: Turn)
      requires running && mode.Polling? && pos <= |script|
      modifies this
      ensures Settles(StepPolling(old(State()), turn), old(pos))
    {
      hide Summary, Record, Step, Leave, SocketStep, UserInput;
      if turn.poll.PollFailed? {
        ExitProgram(false, EXIT_FAILURE);
        return;
      }
      if !(replyMsgSent || confirmMsgSent) {
        stdinReady := turn.poll.stdin;
      }
      if turn.poll.socket {
        SocketTurn(turn.recv);
        return;
      }
      if stdinReady {
        match turn.stdin {
        case Eof => ExitProgram(true, EXIT_FAILURE);
        case Line(text) =>
          if text != "" {
            log := log + [Read(text)];
            UserMsg(text);
          }
        }
      }
    }

    /** The program: the poll loop over the whole script. */
    method StartUdpChat()
      requires running && pos == 0 && mode.Polling?
      modifies this
      ensures pos <= |script| && State() == Run(old(State()), script, max, 0, pos)
      ensures pos == |script| || mode.Exited?
    {
      hide Step, Summary;
      while pos < |script| && running
        invariant Settles(old(State()), 0)
        decreases |script| - pos
      {
        ghost var before, p := State(), pos;
        var turn := script[pos];
        pos := pos + 1;
        ChatTurn(turn);
        StepCases(before, turn, max);
        RunStep(old(State()), script, max, 0, p, pos);
      }
    }
  }
}
