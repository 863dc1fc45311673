/** The one-shot switch of the destination port: exactly when it happens, to which port, and what that means
    for the open session. */
module UdpPorts {
  import opened Chat
  import opened UserLine
  import opened UdpWire
  import opened UdpSession
  import opened UdpInvariants
  import opened UdpGate
  import opened UdpTurns
  import opened UdpTheorems

  /** A well-formed REPLY, of whichever request, whose id was not handled before. */
  predicate FreshReply(s: Session, p: Packet) {
    !IsRepeat(p, s.seen) && Body(Header(p), p).typ in {ReplyOk, ReplyNok}
  }

  /** The turn closes the switch. */
  predicate Closes(s: Session, e: Turn) {
    && s.fsm == AuthState && s.replyPending && s.portOpen
    && TakesPacket(s, e) && FreshReply(s, e.recv.packet)
  }

  /** The port that the switch goes to: only the poll loop records where a datagram came from. */
  function NewPort(s: Session, e: Turn): Port
    requires TakesPacket(s, e)
  {
    if s.mode.Polling? then e.recv.port else s.serverPort
  }

  predicate PortAfter(s: Session, t: Session, switched: bool) {
    if switched then !t.portOpen && t.destPort == s.serverPort else SamePort(s, t)
  }

  lemma AuthPort(s: Session, m: Inbound)
    requires s.fsm == AuthState
    ensures PortAfter(s, HandleAuth(s, m), s.replyPending && s.portOpen && m.typ in {ReplyOk, ReplyNok})
  {
    hide Summary, Record, Leave, ErrorExit, SendConfirm, Show;
    if m.typ in {ReplyOk, ReplyNok} {
      MildSteps(TakeAuthReply(s.(seen := s.seen + [m.id]), m), [], m.id);
    } else {
      ShowNothing(s);
      MildExit(s, [], m.id, true, EXIT_FAILURE);
    }
  }

  lemma OpenPortKept(s: Session, m: Inbound, p: Packet)
    requires s.fsm == OpenState
    ensures SamePort(s, HandleOpen(s, m, p))
  {
    OpenEffect(s, m, p);
    hide HandleOpen, Summary;
  }

  lemma HandlePort(s: Session, p: Packet, repeated: bool)
    ensures var b := Body(Header(p), p);
      PortAfter(s, Handle(s, Header(p), p, repeated),
                !repeated && s.fsm == AuthState && s.replyPending && s.portOpen && b.typ in {ReplyOk, ReplyNok})
  {
    hide Summary, Record, Leave, HandleAuth, HandleOpen, Show, BodyShows, Body, Header;
    var m := Header(p);
    var t := Show(s, BodyShows(m, p));
    MildSteps(s, BodyShows(m, p), 0);
    if s.fsm == StartState {
      MildLeave(t, true, EXIT_FAILURE);
    } else if s.fsm == AuthState {
      AuthPort(t, Body(m, p));
      ShowPending(s, BodyShows(m, p));
    } else {
      OpenPortKept(t, Body(m, p), p);
    }
  }

  lemma ShowPending(s: Session, lines: seq<Shown>)
    ensures Show(s, lines).replyPending == s.replyPending && Show(s, lines).fsm == s.fsm
  {
    hide Summary, Record;
  }

  lemma ReceivePort(s: Session, p: Packet)
    ensures PortAfter(s, Receive(s, p), s.fsm == AuthState && s.replyPending && s.portOpen && FreshReply(s, p))
  {
    BodyKinds(p);
    hide Summary, Record, Leave, ErrorExit, Handle, SendConfirm, BodyShows, Body, Header, IsRepeat, Show;
    var m := Header(p);
    ShowNothing(s);
    HandlePort(s, p, false);
    if m.typ == Err {
      MildExit(s, BodyShows(m, p), m.id, true, EXIT_FAILURE);
    } else {
      MildExit(s, [], m.id, true, EXIT_FAILURE);
      MildExit(s, [], ToId(s.counter), true, EXIT_FAILURE);
    }
  }

  lemma EntryPort(s: Session, e: Turn)
    requires TakesPacket(s, e)
    ensures var t := Entry(s, e);
      && t.serverPort == NewPort(s, e) && SamePort(s, t) && t.fsm == s.fsm && t.seen == s.seen
      && t.replyPending == s.replyPending
  {
    hide Summary, Record;
  }

  lemma PacketPort(s: Session, e: Turn, max: nat)
    requires TakesPacket(s, e)
    ensures PortAfter(Entry(s, e), Step(s, e, max), Closes(s, e))
  {
    BodyKinds(e.recv.packet);
    hide Summary, Record, Handle, Receive, Header, Body, IsRepeat, BodyShows;
    EntryPort(s, e);
    HandlePort(Entry(s, e), e.recv.packet, IsRepeat(e.recv.packet, s.seen));
    ReceivePort(Entry(s, e), e.recv.packet);
    if s.mode.Polling? { } else { }
  }

  /** The destination changes exactly when, in the authentication state with a reply pending and the switch
      still open, a REPLY arrives that was not handled before, whatever request it answers. The new port is
      the one that REPLY came from exactly when the poll loop received it, or the last datagram that the poll
      loop received came from the same port. */
  lemma PortTurn(s: Session, e: Turn, max: nat)
    ensures var t := Step(s, e, max);
      if Closes(s, e) then
        && !t.portOpen && t.destPort == NewPort(s, e)
        && (t.destPort == e.recv.port <==> s.mode.Polling? || s.serverPort == e.recv.port)
      else SamePort(s, t)
  {
    hide Summary, StepPolling, StepWaiting, StepLeaving, Handle, Receive, UserInput, IsConfirm, Header, Body, Grammar,
      FreshReply, Entry;
    if TakesPacket(s, e) {
      hide Step;
      EntryPort(s, e);
      PacketPort(s, e, max);
    } else {
      match s.mode
      case Polling =>
        PollingEffect(s, e);
        if TakesLine(s, e) {
          LineDoes(s, e);
        }
      case Waiting(_, _, _) => WaitingEffect(s, e, max);
      case Leaving(_, _) => LeavingEffect(s, e, max);
      case Exited(_) =>
    }
  }

  // ---------- the port of the last datagram that the poll loop received ----------

  function PolledPort(s: Session, script: seq<Turn>, max: nat, n: nat): Port
    requires n <= |script|
  {
    if n == 0 then s.serverPort
    else
      var t := Run(s, script, max, 0, n - 1);
      if t.mode.Polling? && TakesPacket(t, script[n - 1]) then script[n - 1].recv.port
      else PolledPort(s, script, max, n - 1)
  }

  lemma RecordedTurn(s: Session, e: Turn, max: nat)
    ensures Step(s, e, max).serverPort == if s.mode.Polling? && TakesPacket(s, e) then e.recv.port else s.serverPort
  {
    hide Summary, StepPolling, StepWaiting, StepLeaving, Handle, Receive, UserInput, IsConfirm, Header, Body, Grammar,
      Entry;
    if TakesPacket(s, e) {
      EntryPort(s, e);
    }
    match s.mode
    case Polling =>
      PollingEffect(s, e);
      if TakesLine(s, e) {
        LineDoes(s, e);
      }
    case Waiting(_, _, _) => WaitingEffect(s, e, max);
    case Leaving(_, _) => LeavingEffect(s, e, max);
    case Exited(_) =>
  }

  /** The recorded port is that of the last datagram of the poll loop, and 65535 before there was one. */
  lemma {:induction false} PortRecorded(dest: Port, ready: bool, script: seq<Turn>, max: nat, n: nat)
    requires n <= |script|
    ensures Run(Init(dest, ready), script, max, 0, n).serverPort == PolledPort(Init(dest, ready), script, max, n)
    ensures PolledPort(Init(dest, ready), script, max, 0) == 0xFFFF
  {
    hide Step;
    if n > 0 {
      PortRecorded(dest, ready, script, max, n - 1);
      RecordedTurn(Run(Init(dest, ready), script, max, 0, n - 1), script[n - 1], max);
    }
  }

  // ---------- the open session ----------

  /** The session that a REPLY opens talks to the port that this REPLY came from exactly when the poll loop
      received it and no earlier REPLY closed the switch; or else when that port happens to be recorded, or
      to have been switched to, already. */
  lemma OpeningPort(s: Session, e: Turn, max: nat)
    ensures var t := Step(s, e, max);
      s.fsm != OpenState && t.fsm == OpenState ==>
        && TakesPacket(s, e)
        && t.destPort == (if s.portOpen then NewPort(s, e) else s.destPort)
        && (t.destPort == e.recv.port <==>
              if s.portOpen then s.mode.Polling? || s.serverPort == e.recv.port else s.destPort == e.recv.port)
  {
    hide Step, Closes, TakesPacket;
    OpeningCloses(s, e, max);
    PortTurn(s, e, max);
  }

  lemma OpeningCloses(s: Session, e: Turn, max: nat)
    ensures s.fsm != OpenState && Step(s, e, max).fsm == OpenState ==> TakesPacket(s, e) && Closes(s, e) == s.portOpen
  {
    hide Summary, StepPolling, StepWaiting, StepLeaving, Handle, Receive, UserInput, IsConfirm, Header, Body, Grammar,
      Entry, IsRepeat;
    if TakesPacket(s, e) {
      EntryKeeps(s, e);
      EntryPort(s, e);
      if IsRepeat(e.recv.packet, s.seen) {
        RepeatKeepsState(s, e, max);
      }
    }
    match s.mode
    case Polling =>
      PollingEffect(s, e);
      if TakesLine(s, e) {
        LineDoes(s, e);
      }
    case Waiting(_, _, _) => WaitingEffect(s, e, max);
    case Leaving(_, _) => LeavingEffect(s, e, max);
    case Exited(_) =>
  }

  lemma RepeatKeepsState(s: Session, e: Turn, max: nat)
    requires TakesPacket(s, e) && IsRepeat(e.recv.packet, s.seen)
    ensures Step(s, e, max).fsm == s.fsm
  {
    hide Summary, Record, Body, BodyShows, Dispatch;
  }

  /** Over whole runs: an open session talks to the port that the first REPLY of the authentication state
      gave it, in an earlier or in the opening turn, whatever request that REPLY answered. */
  lemma {:induction false} OpenPort(dest: Port, ready: bool, script: seq<Turn>, max: nat, n: nat)
    requires n <= |script|
    ensures var s := Init(dest, ready);
      var t := Run(s, script, max, 0, n);
      if t.portOpen then t.destPort == dest && t.fsm != OpenState
      else exists i | 0 <= i < n :: SwitchedIn(s, script, max, i, t.destPort)
  {
    hide Step, FreshReply, NewPort;
    var s := Init(dest, ready);
    if n > 0 {
      OpenPort(dest, ready, script, max, n - 1);
      var u := Run(s, script, max, 0, n - 1);
      assert Run(s, script, max, 0, n) == Step(u, script[n - 1], max);
      PortTurn(u, script[n - 1], max);
      InitInv(dest, ready);
      RunInv(s, script, max, 0, n);
      if Closes(u, script[n - 1]) {
        assert SwitchedIn(s, script, max, n - 1, Run(s, script, max, 0, n).destPort);
      }
    }
  }

  predicate SwitchedIn(s: Session, script: seq<Turn>, max: nat, i: nat, port: Port)
    requires i < |script|
  {
    var t := Run(s, script, max, 0, i);
    Closes(t, script[i]) && NewPort(t, script[i]) == port
  }

  /** Everything sent went to the initial port or, after the switch, to the one other port. */
  predicate Directed(s: Session, first: Port) {
    var dests := Summary(s.log).dests;
    if s.portOpen then s.destPort == first && dests <= {first} else dests <= {first, s.destPort}
  }

  lemma DirectedTurn(s: Session, e: Turn, max: nat, first: Port)
    requires Directed(s, first)
    ensures Directed(Step(s, e, max), first)
  {
    PortTurn(s, e, max);
    AimedTurn(s, e, max);
    hide Summary, Step, TakesPacket;
  }

  lemma AimedTurn(s: Session, e: Turn, max: nat)
    ensures Aimed(s, Step(s, e, max))
  {
    hide Summary, StepPolling, StepWaiting, StepLeaving, Handle, Receive, UserInput, IsConfirm, Header, Body, Grammar;
    match s.mode
    case Polling =>
      PollingEffect(s, e);
      if TakesLine(s, e) {
        LineDoes(s, e);
      }
    case Waiting(_, _, _) => WaitingEffect(s, e, max);
    case Leaving(_, _) => LeavingEffect(s, e, max);
    case Exited(_) =>
  }

  /** Over whole runs the client talks to at most two ports: the one it was started with, and the one it
      switched to. */
  lemma {:induction false} PortsUsed(dest: Port, ready: bool, script: seq<Turn>, max: nat, n: nat)
    requires n <= |script|
    ensures Directed(Run(Init(dest, ready), script, max, 0, n), dest)
  {
    hide Step;
    if n > 0 {
      PortsUsed(dest, ready, script, max, n - 1);
      DirectedTurn(Run(Init(dest, ready), script, max, 0, n - 1), script[n - 1], max, dest);
    }
  }

  lemma {:induction false} PortOnce(s: Session, script: seq<Turn>, max: nat, i: nat, k: nat, j: nat)
    requires i <= k <= j <= |script|
    ensures var t, u := Run(s, script, max, i, k), Run(s, script, max, i, j);
      && (!t.portOpen ==> SamePort(t, u))
      && (u.portOpen ==> SamePort(t, u))
    decreases j - k
  {
    hide Step;
    if k < j {
      PortOnce(s, script, max, i, k, j - 1);
      PortTurn(Run(s, script, max, i, j - 1), script[j - 1], max);
    }
  }
}
