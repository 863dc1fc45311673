/** What one turn can change: the facts about the poll gate, the pending request, the session state and
    the destination port from which the whole-run theorems follow. */
module UdpGate {
  import opened Chat
  import opened UdpWire
  import opened UdpSession
  import opened UdpInvariants

  /** The request queue is exactly the pending request, and every other request has its printed reply. */
  predicate Paired(s: Session) {
    var h := Summary(s.log);
    && (s.replyPending ==> h.requests != [] && s.replyIds == [h.requests[|h.requests| - 1]])
    && (!s.replyPending ==> s.replyIds == [])
    && |h.requests| == |h.replies| + (if s.replyPending then 1 else 0)
  }

  /** Before the open state only AUTHs have been sent. */
  predicate AuthsOnly(s: Session) {
    var h := Summary(s.log);
    s.fsm != OpenState ==> h.chats == [] && h.requests == h.auths
  }

  /** Same user messages in the log, same verdict of the monitor. */
  predicate SameSends(s: Session, t: Session) {
    var g, h := Summary(s.log), Summary(t.log);
    && h.users == g.users && h.requests == g.requests && h.auths == g.auths && h.chats == g.chats
    && h.wait == g.wait && h.lines == g.lines && h.resent == g.resent
  }

  /** Whatever was sent in between went to the port that is current afterwards. */
  predicate Aimed(s: Session, t: Session) {
    Summary(t.log).dests <= Summary(s.log).dests + {t.destPort}
  }

  predicate SamePort(s: Session, t: Session) {
    t.portOpen == s.portOpen && t.destPort == s.destPort
  }

  predicate Switches(s: Session, t: Session) {
    && s.fsm == AuthState && s.replyPending && s.portOpen
    && !t.portOpen && t.destPort == s.serverPort
  }

  predicate SameRequest(s: Session, t: Session) {
    && t.replyIds == s.replyIds && t.replyPending == s.replyPending
    && |Summary(t.log).replies| == |Summary(s.log).replies|
  }

  /** The pending request is answered by a message that carries its id. */
  predicate Answered(s: Session, t: Session, m: Inbound) {
    && Answers(s, m) && !t.replyPending && t.replyIds == s.replyIds[1..]
    && |Summary(t.log).replies| == |Summary(s.log).replies| + 1
  }

  predicate Gone(t: Session) {
    t.mode.Leaving? || t.mode.Exited?
  }

  /** Everything handling a decoded message m can do. */
  predicate Effect(s: Session, t: Session, m: Inbound) {
    && SameSends(s, t) && Aimed(s, t)
    && t.dname == s.dname && t.stdinReady == s.stdinReady && t.serverPort == s.serverPort
    && (SamePort(s, t) || Switches(s, t))
    && (t.fsm == s.fsm || (s.fsm == AuthState && t.fsm == OpenState && m.typ == ReplyOk && Answered(s, t, m)))
    && (SameRequest(s, t) || Answered(s, t, m))
    && (t.mode == s.mode || Gone(t))
    && (Gone(t) || t.confirmPending == s.confirmPending || (m.typ == Confirm && !t.confirmPending))
  }

  /** Sending a CONFIRM, showing a line and leaving touch nothing that matters to the gate. */
  predicate Mild(s: Session, t: Session) {
    && SameSends(s, t) && Aimed(s, t) && SamePort(s, t) && SameRequest(s, t)
    && t.dname == s.dname && t.stdinReady == s.stdinReady && t.serverPort == s.serverPort && t.fsm == s.fsm
    && (t.mode == s.mode || Gone(t))
    && (Gone(t) || t.confirmPending == s.confirmPending)
  }

  lemma MildSteps(s: Session, lines: seq<Shown>, id: Id)
    ensures Mild(s, SendConfirm(s, id))
    ensures Mild(s, Show(s, lines)) && Summary(Show(s, lines).log).dests == Summary(s.log).dests
  {
    hide Summary, ConfirmBytes;
  }

  lemma MildLeave(s: Session, bye: bool, code: int)
    ensures Mild(s, Leave(s, bye, code)) && Gone(Leave(s, bye, code))
  {
    hide Summary, ByeBytes;
    if bye { } else { }
  }

  lemma MildErrorExit(s: Session)
    ensures Mild(s, ErrorExit(s))
  {
    hide Summary, ByeBytes, ErrBytes;
  }

  /** Confirming, possibly showing, and leaving. */
  lemma MildExit(s: Session, lines: seq<Shown>, id: Id, bye: bool, code: int)
    ensures Mild(s, Leave(SendConfirm(Show(s, lines), id), bye, code))
    ensures Mild(s, ErrorExit(SendConfirm(Show(s, lines), id)))
  {
    hide Summary, Leave, ErrorExit, SendConfirm, Show;
    var t := Show(s, lines);
    var u := SendConfirm(t, id);
    MildSteps(s, lines, id);
    MildSteps(t, lines, id);
    MildLeave(u, bye, code);
    MildErrorExit(u);
  }

  lemma ShowNothing(s: Session)
    ensures Show(s, []) == s
  {
  }

  lemma ReplyEffect(s: Session, m: Inbound, t: Session)
    requires t.log == s.log && SameRequest(s, t) && t.dname == s.dname && t.stdinReady == s.stdinReady
    requires t.serverPort == s.serverPort && t.mode == s.mode && t.confirmPending == s.confirmPending
    requires SamePort(s, t) || Switches(s, t)
    requires t.fsm == s.fsm || (s.fsm == AuthState && t.fsm == OpenState && m.typ == ReplyOk && Answers(s, m))
    ensures Effect(s, SendConfirm(TakeReply(t, m), m.id), m)
  {
    hide Summary, SendConfirm;
    var u := TakeReply(t, m);
    MildSteps(u, [], m.id);
    if Answers(s, m) {
      assert Answered(s, u, m);
    } else {
      assert u == t;
    }
  }

  lemma AuthReplyEffect(s: Session, m: Inbound)
    requires s.fsm == AuthState && m.typ in {ReplyOk, ReplyNok}
    ensures Effect(s, HandleAuth(s, m), m)
  {
    AuthReplySplit(s.(seen := s.seen + [m.id]), m);
    hide Summary, SendConfirm, TakeReply, Effect, Record;
    var t := SwitchPort(s.(seen := s.seen + [m.id]));
    var u := if Answers(s, m) && m.typ == ReplyOk then t.(fsm := OpenState) else t;
    ReplyEffect(s, m, u);
  }

  lemma AuthEffect(s: Session, m: Inbound)
    requires s.fsm == AuthState
    ensures Effect(s, HandleAuth(s, m), m)
  {
    hide Summary, Leave, ErrorExit, SendConfirm, TakeAuthReply, Show, Record;
    ShowNothing(s);
    if m.typ in {ReplyOk, ReplyNok} {
      AuthReplyEffect(s, m);
    } else {
      MildExit(s, [], m.id, true, EXIT_FAILURE);
    }
  }

  lemma OpenEffect(s: Session, m: Inbound, p: Packet)
    requires s.fsm == OpenState
    ensures Effect(s, HandleOpen(s, m, p), m)
  {
    hide Summary, Leave, ErrorExit, SendConfirm, TakeReply, Show, BodyShows;
    ShowNothing(s);
    if m.typ in {ReplyOk, ReplyNok} {
      ReplyEffect(s, m, s.(seen := s.seen + [m.id]));
    } else if m.typ == Msg {
      MildSteps(s.(seen := s.seen + [m.id]), [], m.id);
    } else if m.typ == Err {
      MildExit(s, BodyShows(m, p), m.id, true, EXIT_FAILURE);
    } else if m.typ == Bye {
      MildExit(s, [], m.id, false, EXIT_FAILURE);
    } else if m.typ != Confirm {
      MildExit(s, [], ToId(s.counter), true, EXIT_FAILURE);
    }
  }

  lemma HandleEffect(s: Session, p: Packet, repeated: bool)
    ensures Effect(s, Handle(s, Header(p), p, repeated), Body(Header(p), p))
  {
    hide Summary, Leave, HandleAuth, HandleOpen, Show, BodyShows, Body, Header;
    var m := Header(p);
    var t := Show(s, BodyShows(m, p));
    MildSteps(s, BodyShows(m, p), 0);
    if s.fsm == StartState {
      MildLeave(t, true, EXIT_FAILURE);
    } else if s.fsm == AuthState {
      AuthEffect(t, Body(m, p));
    } else {
      OpenEffect(t, Body(m, p), p);
    }
  }

  lemma ReceiveEffect(s: Session, p: Packet)
    ensures Effect(s, Receive(s, p), Body(Header(p), p))
  {
    hide Summary, Leave, ErrorExit, Handle, SendConfirm, BodyShows, Body, Header, IsRepeat, Show;
    ShowNothing(s);
    var m := Header(p);
    HandleEffect(s, p, false);
    if m.typ == Err {
      MildExit(s, BodyShows(m, p), m.id, true, EXIT_FAILURE);
    } else {
      MildExit(s, [], m.id, true, EXIT_FAILURE);
      MildExit(s, [], ToId(s.counter), true, EXIT_FAILURE);
    }
  }
}
