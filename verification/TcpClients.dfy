/** The TCP client as the program is written: an object whose methods update its fields, with the receive
    loop that fills a buffer byte by byte. Every method is proved to do what the flat machine of
    TcpSession does. */
module TcpClients {
  import opened Chat
  import opened UserLine
  import opened TcpWire
  import opened TcpMessages
  import opened TcpSession
  import opened TcpTheorems

  predicate HasCrlf(s: string) {
    exists i | 0 <= i < |s| - 1 :: s[i] == '\r' && s[i + 1] == '\n'
  }

  /** Rescanning the whole buffer agrees with looking at its last two bytes, as long as no shorter prefix
      ended in CRLF. */
  lemma RescanAgrees(s: string)
    requires forall m | 0 <= m < |s| :: !EndsCrlf(s[..m])
    ensures HasCrlf(s) <==> EndsCrlf(s)
  {
    if HasCrlf(s) {
      var i :| 0 <= i < |s| - 1 && s[i] == '\r' && s[i + 1] == '\n';
      var t := s[..i + 2];
      assert EndsCrlf(t);
      assert i + 2 == |s| ==> t == s;
    }
    if EndsCrlf(s) {
      assert s[|s| - 2] == '\r';
    }
  }

  lemma NothingEnds(s: string)
    ensures !EndsCrlf(s[..0])
  {
  }

  class TcpClient {
    const network: string       // the bytes the server sends before it closes the connection
    const script: seq<Turn>
    var received: nat           // bytes of network received
    var pos: nat                // turns consumed
    var running: bool           // false once the program has ended

    var dname: string
    var clientState: FsmState
    var replyMsgSent: bool
    var stdinReady: bool

    ghost var mode: Mode
    ghost var log: seq<Obs>

    constructor (network: string, script: seq<Turn>, stdinReady: bool)
      ensures this.network == network && this.script == script && pos == 0 && running && Valid()
      ensures State() == Init(network, stdinReady)
    {
      this.network, this.script, received, pos, running := network, script, 0, 0, true;
      dname, clientState, replyMsgSent := "", StartState, false;
      this.stdinReady, mode, log := stdinReady, Chatting, [];
    }

    ghost predicate Valid()
      reads this
    {
      received <= |network| && running == mode.Chatting? && ValidName(dname)
    }

    ghost function State(): Session
      requires received <= |network|
      reads this
    {
      Session(mode, clientState, dname, replyMsgSent, stdinReady, network[received..], log)
    }

    method SendMsg(msg: TcpMessage, ghost typ: MsgType)
      requires Valid()
      modifies this`log
      ensures Valid() && State() == Send(old(State()), typ, msg.Text())
    {
      log := log + [Sent(typ, msg.Text(), clientState)];
    }

    method SendByeMsg()
      requires Valid() && running
      modifies this`log
      ensures Valid() && State() == Send(old(State()), MsgType.Bye, BYE_LINE)
    {
      hide Summary, Record, UpToNul, Check;
      CheckOwn(Bye, "BYE", "");
      ValidEmpty();
      var byeMsg := new TcpMessage("BYE", MsgType.Bye);
      byeMsg.ProcessOutgoing();
      SendMsg(byeMsg, MsgType.Bye);
    }

    method SendErrMsg(text: string)
      requires Valid() && running && (text == ERR_TEXT || text == OPEN_ERR_TEXT)
      modifies this`log
      ensures Valid() && State() == Send(old(State()), MsgType.Err, TextLine("ERR", dname, text))
    {
      hide Summary, Record, UpToNul, TextLine, Check, ValidParam;
      OwnTexts();
      CheckOwn(CustomErr, text, dname);
      var errMsg := new TcpMessage(text, CustomErr);
      errMsg.base.displayName := dname;
      errMsg.ProcessOutgoing();
      SendMsg(errMsg, MsgType.Err);
    }

    /** exit_program; running becomes false and the callers stop. */
    method ExitProgram(sendBye: bool, code: int)
      requires Valid() && running
      modifies this`log, this`mode, this`running
      ensures Valid() && !running && State() == Leave(old(State()), sendBye, code)
    {
      hide Summary;
      if sendBye {
        SendByeMsg();
      }
      running := false;
      mode := Ended(code);
    }

    lemma ValidEmpty()
      ensures ValidName("")
    {
    }

    /** Reports an error to the server and leaves. */
    method ErrExit(text: string)
      requires Valid() && running && (text == ERR_TEXT || text == OPEN_ERR_TEXT)
      modifies this`log, this`mode, this`running
      ensures Valid() && !running && State() == ErrorExit(old(State()), text)
    {
      hide Summary, Record, Leave, TextLine;
      SendErrMsg(text);
      ExitProgram(true, EXIT_FAILURE);
    }

    /** The inner loop of the receive loop: looks for CRLF in everything received so far. */
    method Rescan(buffer: array<char>, n: nat) returns (found: bool)
      requires 0 < n <= buffer.Length
      ensures found == HasCrlf(buffer[..n])
    {
      found := false;
      var i := 0;
      while i < n - 1 && !found
        invariant i <= n - 1
        invariant !found ==> forall k | 0 <= k < i :: !(buffer[k] == '\r' && buffer[k + 1] == '\n')
        invariant found ==> HasCrlf(buffer[..n])
      {
        if buffer[i] == '\r' && buffer[i + 1] == '\n' {
          found := true;
          assert buffer[..n][i] == '\r' && buffer[..n][i + 1] == '\n';
        }
        i := i + 1;
      }
      if !found {
        assert forall k | 0 <= k < n :: buffer[..n][k] == buffer[k];
      }
    }

    /** One recv and the rescan after it. */
    method ReceiveByte(buffer: array<char>, total: nat, ghost st: string) returns (found: bool)
      requires Valid() && running && total < BUFFER_SIZE == buffer.Length
      requires total < |st| && State().stream == st[total..] && buffer[..total] == st[..total]
      requires forall m | 0 <= m <= total :: !EndsCrlf(st[..m])
      modifies this`received, buffer
      ensures Valid() && received == old(received) + 1 && State() == old(State()).(stream := st[total + 1..])
      ensures buffer[..total + 1] == st[..total + 1] && found == EndsCrlf(st[..total + 1])
    {
      assert network[received] == network[received..][0] == st[total];
      buffer[total] := network[received];
      assert network[received + 1..] == network[received..][1..];
      received := received + 1;
      ghost var t := st[..total + 1];
      assert buffer[..total + 1] == t;
      assert forall m | 0 <= m < total + 1 :: t[..m] == st[..m];
      RescanAgrees(t);
      found := Rescan(buffer, total + 1);
    }

    /** Receives byte by byte until CRLF is found or the buffer is full; a closed connection ends the
        program. */
    method AcceptMsg(msg: TcpMessage) returns (bytesRx: nat)
      requires Valid() && running && msg.buffer.Length == BUFFER_SIZE
      modifies this, msg.buffer
      ensures Valid() && pos == old(pos)
      ensures var st := old(State()).stream;
        match NextFrame(st)
        case None => !running && State() == Leave(old(State()).(stream := ""), false, EXIT_FAILURE)
        case Some(n) =>
          && running && bytesRx == n && msg.Holds(st[..n])
          && State() == Emit(old(State()).(stream := st[n..]), Got(st[..n]))
    {
      hide Summary, Record, Leave, FrameFrom, ValidName, EndsCrlf;
      ghost var s, st := State(), State().stream;
      NothingEnds(st);
      var found, total := false, 0;
      while !found && total <= BUFFER_SIZE - 1
        invariant Valid() && running && total <= BUFFER_SIZE && pos == old(pos)
        invariant received == old(received) + total && total <= |st| && |st| - total == |network| - received
        invariant State() == s.(stream := st[total..])
        invariant msg.buffer[..total] == st[..total]
        invariant found ==> total > 0 && NextFrame(st) == Some(total)
        invariant !found ==> NextFrame(st) == FrameFrom(st, total)
        invariant !found ==> forall m | 0 <= m <= total :: !EndsCrlf(st[..m])
        decreases BUFFER_SIZE - total, !found
      {
        FrameFromStep(st, total);
        if received == |network| {
          assert total == |st| && st[total..] == "";
          assert State() == s.(stream := "") && NextFrame(st) == None;
          ExitProgram(false, EXIT_FAILURE);
          bytesRx := total;
          return;
        }
        found := ReceiveByte(msg.buffer, total, st);
        total := total + 1;
      }
      if !found {
        FrameFromStep(st, total);
      }
      log := log + [Got(st[..total])];
      bytesRx := total;
    }

    method PrintReply(text: string)
      requires Valid()
      modifies this`replyMsgSent, this`log
      ensures Valid() && State() == TakeReply(old(State()), text)
    {
      hide Summary;
      if replyMsgSent {
        log := log + [Printed(text)];
        replyMsgSent := false;
      }
    }

    method HandleAuthMsg(typ: MsgType, text: string) returns (goesOn: bool)
      requires Valid() && running && clientState == AuthState
      modifies this
      ensures Valid() && received == old(received) && pos == old(pos)
      ensures Next(State(), goesOn) == HandleAuth(old(State()), typ, text)
    {
      hide Summary, Leave, ErrorExit;
      goesOn := true;
      if typ == ReplyOk {
        if replyMsgSent {
          PrintReply(text);
          clientState := OpenState;
          goesOn := false;
        }
      } else if typ == ReplyNok {
        if replyMsgSent {
          PrintReply(text);
          goesOn := false;
        }
      } else if typ == MsgType.Err {
        ExitProgram(true, EXIT_FAILURE);
        goesOn := false;
      } else if typ == MsgType.Bye || typ == MsgType.Msg || typ == InvalidMsg {
        ErrExit(ERR_TEXT);
        goesOn := false;
      }
    }

    method HandleOpenMsg(typ: MsgType, text: string) returns (goesOn: bool)
      requires Valid() && running && clientState == OpenState
      modifies this
      ensures Valid() && received == old(received) && pos == old(pos)
      ensures Next(State(), goesOn) == HandleOpen(old(State()), typ, text)
    {
      hide Summary, Leave, ErrorExit;
      goesOn := false;
      if typ == MsgType.Err {
        ExitProgram(true, EXIT_FAILURE);
      } else if typ == MsgType.Bye {
        ExitProgram(false, EXIT_SUCCESS);
      } else if typ == ReplyNok {
        PrintReply(text);
        replyMsgSent := false;
        goesOn := true;
      } else if typ == ReplyOk {
        PrintReply(text);
        goesOn := true;
      } else if typ != MsgType.Msg {
        ErrExit(OPEN_ERR_TEXT);
      }
    }

    /** A POLLIN of the socket; the result says whether the iteration goes on to standard input. */
    method ReceiveMsg() returns (goesOn: bool)
      requires Valid() && running
      modifies this
      ensures Valid() && pos == old(pos)
      ensures Next(State(), goesOn) == Receive(old(State()))
    {
      hide Summary, Leave, ErrorExit, HandleAuth, HandleOpen, TcpDecode, NextFrame;
      ghost var st := State().stream;
      var inbound := new TcpMessage("", ToBeDecided);
      var bytesRx := AcceptMsg(inbound);
      if !running {
        return false;
      }
      ghost var f := st[..bytesRx];
      var shown, raised := inbound.ProcessInbound(bytesRx, f);
      if raised {
        running := false;
        mode := Aborted;
        return false;
      }
      if shown != [] {
        log := log + [Console(shown[0])];
      }
      var typ, text := inbound.base.typ, inbound.base.message;
      match clientState {
      case StartState =>
        goesOn := typ == ToBeDecided;
        if typ != ToBeDecided {
          ErrExit(ERR_TEXT);
        }
      case AuthState => goesOn := HandleAuthMsg(typ, text);
      case OpenState => goesOn := HandleOpenMsg(typ, text);
      }
    }

    /** A parsed user message. */
    method SubmitMsg(msg: TcpMessage, ghost o: Outcome)
      requires Valid() && running && ValidName(o.name)
      requires msg.base.typ == o.typ && msg.base.readyToSend == o.ready && msg.base.displayName == o.name
      modifies this
      ensures Valid() && pos == old(pos) && State() == Submit(old(State()), o, msg.Text())
    {
      hide Summary;
      if msg.base.typ == MsgType.Auth || msg.base.typ == MsgType.Rename {
        dname := msg.base.displayName;
      }
      if msg.base.readyToSend {
        match clientState {
        case StartState =>
          if msg.base.typ == MsgType.Auth {
            replyMsgSent := true;
            clientState := AuthState;
            SendMsg(msg, MsgType.Auth);
          }
        case AuthState =>
          if msg.base.typ == MsgType.Auth {
            replyMsgSent := true;
            SendMsg(msg, MsgType.Auth);
          }
        case OpenState =>
          if msg.base.typ == MsgType.Join {
            replyMsgSent := true;
            SendMsg(msg, MsgType.Join);
          } else if msg.base.typ != MsgType.Auth {
            SendMsg(msg, msg.base.typ);
          }
        }
      }
    }

    /** The standard-input half of an iteration. */
    method ReadLine(stdin: Stdin)
      requires Valid() && running
      modifies this
      ensures Valid() && pos == old(pos) && State() == ReadStdin(old(State()), stdin)
    {
      hide Summary, Leave, Submit, Grammar, TcpEncode, UpToNul;
      if stdinReady {
        match stdin {
        case Eof => ExitProgram(true, EXIT_FAILURE);
        case Line(text) =>
          if text != "" {
            log := log + [Read(text)];
            CheckIsGrammar(text, dname);
            GrammarName(text, dname);
            var msg := new TcpMessage(text, UserCmd);
            msg.base.displayName := dname;
            msg.ProcessOutgoing();
            SubmitMsg(msg, Grammar(text, dname));
          }
        }
      }
    }

    /** One iteration of the poll loop. */
    method ChatTurn(turn: Turn)
      requires Valid() && running
      modifies this
      ensures Valid() && pos == old(pos) && State() == Step(old(State()), turn)
    {
      hide Summary, Leave, Receive, ReadStdin;
      if turn.poll.PollFailed? {
        ExitProgram(false, EXIT_FAILURE);
        return;
      }
      if !replyMsgSent {
        stdinReady := turn.poll.stdin;
      }
      var goesOn := true;
      if turn.poll.socket {
        ReceiveEffect(State());
        goesOn := ReceiveMsg();
      }
      if goesOn {
        ReadLine(turn.stdin);
      }
    }

    /** The program: the poll loop over the whole script. */
    method StartTcpChat()
      requires Valid() && running && pos == 0
      modifies this
      ensures Valid() && pos <= |script| && State() == Run(old(State()), script, 0, pos)
      ensures pos == |script| || !running
    {
      hide Step, Summary;
      while pos < |script| && running
        invariant Valid() && pos <= |script| && State() == Run(old(State()), script, 0, pos)
        decreases |script| - pos
      {
        var turn := script[pos];
        ChatTurn(turn);
        pos := pos + 1;
      }
    }
  }
}
