/** What reaches the user and the server for one datagram of a running session, end to end. */
module UdpDelivery {
  import opened Chat
  import opened UserLine
  import opened UdpWire
  import opened UdpSession
  import opened UdpInvariants
  import opened UdpTurns

  /** The step on a datagram that does not release the retransmission loop. */
  lemma PacketStep(s: Session, e: Turn, max: nat)
    requires TakesPacket(s, e) && !Releases(s, e)
    ensures var t, p := Entry(s, e), e.recv.packet;
      Step(s, e, max) == if s.mode.Polling? then Receive(t, p) else Handle(t, Header(p), p, IsRepeat(p, s.seen))
  {
    hide Summary, Receive, Handle, Header, IsRepeat, IsConfirm;
  }

  /** A fresh REPLY before or in the open state, in either loop. */
  lemma FreshReply(t: Session, p: Packet, m: Inbound, b: Inbound)
    requires t.fsm != StartState && Header(p) == m && Body(m, p) == b && BodyShows(m, p) == []
    requires m.typ == ReplyOk && m.id !in t.seen
    ensures Handle(t, m, p, false) == Receive(t, p)
    ensures Receive(t, p) == if t.fsm == AuthState then HandleAuth(t, b) else HandleOpen(t, b, p)
    ensures !IsRepeat(p, t.seen)
  {
    hide Summary, Header, Body, BodyShows, HandleAuth, HandleOpen;
  }

  /** A fresh message in the open state, in either loop. */
  lemma HandleFresh(t: Session, p: Packet, m: Inbound, b: Inbound, lines: seq<Shown>)
    requires t.fsm == OpenState && Header(p) == m && Body(m, p) == b && BodyShows(m, p) == lines
    requires m.typ == Msg && m.id !in t.seen
    ensures Handle(t, m, p, false) == HandleOpen(Show(t, lines), b, p) == Receive(t, p)
    ensures !IsRepeat(p, t.seen)
  {
    hide Summary, Header, Body, BodyShows, HandleOpen;
  }

  lemma OpenChat(t: Session, p: Packet, m: Inbound, line: Shown)
    requires m.typ == Msg
    ensures HandleOpen(Show(t, [line]), m, p) == t.(
      seen := t.seen + [m.id],
      log := t.log + [Console(line), Sent(Confirm, m.id, ConfirmBytes(m.id), t.destPort)])
  {
    hide Summary, Record, ConfirmBytes, BodyShows;
    var o := Sent(Confirm, m.id, ConfirmBytes(m.id), t.destPort);
    assert t.log + [Console(line)] + [o] == t.log + [Console(line), o];
  }

  /** The session after the answer m to its oldest pending request: printed, confirmed to the port that is
      current then, and, in the authentication state, opening the session and closing the port switch. */
  function Replied(t: Session, m: Inbound): Session
    requires t.replyIds != []
  {
    var switches := t.fsm == AuthState && t.portOpen;
    var dest := if switches then t.serverPort else t.destPort;
    t.(seen := t.seen + [m.id], replyIds := t.replyIds[1..], replyPending := false,
       fsm := if m.typ == ReplyOk then OpenState else t.fsm,
       portOpen := t.portOpen && !switches, destPort := dest,
       log := t.log + [Printed(m.id, m.ref, m.text), Sent(Confirm, m.id, ConfirmBytes(m.id), dest)])
  }

  lemma OpenReply(t: Session, p: Packet, m: Inbound)
    requires m.typ in {ReplyOk, ReplyNok} && t.replyPending && t.replyIds != [] && t.replyIds[0] == m.ref
    ensures t.fsm == OpenState ==> HandleOpen(t, m, p) == Replied(t, m)
    ensures t.fsm == AuthState ==> HandleAuth(t, m) == Replied(t, m)
  {
    hide Summary, Record, ConfirmBytes, BodyShows;
    var dest := if t.fsm == AuthState && t.portOpen then t.serverPort else t.destPort;
    var o := Sent(Confirm, m.id, ConfirmBytes(m.id), dest);
    assert t.log + [Printed(m.id, m.ref, m.text)] + [o] == t.log + [Printed(m.id, m.ref, m.text), o];
  }

  /** The observables that Entry keeps. */
  lemma EntrySame(s: Session, e: Turn)
    requires TakesPacket(s, e)
    ensures var t := Entry(s, e);
      && t.fsm == s.fsm && t.seen == s.seen && t.destPort == s.destPort && t.mode == s.mode
      && t.replyPending == s.replyPending && t.replyIds == s.replyIds
  {
    hide Summary;
  }

  /** A chat message that any peer encodes is shown to an authenticated user once, with its exact name and
      text, and confirmed under its id; nothing else changes. */
  lemma ChatDelivered(s: Session, e: Turn, max: nat, id: Id, name: string, content: string)
    requires s.fsm == OpenState && TakesPacket(s, e) && id !in s.seen
    requires NulFree(name) && NulFree(content) && IsBytes(name) && IsBytes(content)
    requires 2 <= |name| + |content| <= BUFFER_SIZE - 5
    requires e.recv.packet == UdpEncode(Outcome(true, Msg, true, name, []), id, content)
    ensures Step(s, e, max) == Entry(s, e).(
      seen := s.seen + [id],
      log := Entry(s, e).log + [Console(Shown(Msg, id, name, content)),
                                Sent(Confirm, id, ConfirmBytes(id), s.destPort)])
  {
    hide UdpEncode, Header, Body, BodyShows, Summary, ConfirmBytes, Receive, Handle, HandleOpen, Show, Step, Entry;
    TextRoundTrip(Msg, id, name, content);
    EntrySame(s, e);
    PacketStep(s, e, max);
    var p, m, line := e.recv.packet, Inbound(Msg, id, 0, ""), Shown(Msg, id, name, content);
    HandleFresh(Entry(s, e), p, m, m, [line]);
    OpenChat(Entry(s, e), p, m, line);
  }

  /** The answer to the oldest pending request is printed with its exact text and confirmed, in either loop; a
      positive one opens the session, and the first answer to an AUTH closes the port switch before the
      CONFIRM is sent. */
  lemma ReplyDelivered(s: Session, e: Turn, max: nat, id: Id, ok: bool, content: string)
    requires s.fsm != StartState && TakesPacket(s, e) && id !in s.seen
    requires s.replyPending && s.replyIds != []
    requires NulFree(content) && IsBytes(content) && 0 < |content| <= BUFFER_SIZE - 7
    requires e.recv.packet == ReplyPacket(id, ok, s.replyIds[0], content)
    ensures Entry(s, e).replyIds == s.replyIds
    ensures Step(s, e, max) == Replied(Entry(s, e), Inbound(if ok then ReplyOk else ReplyNok, id, s.replyIds[0],
                                                            (if ok then "Success: " else "Failure: ") + content))
  {
    hide ReplyPacket, Header, Body, BodyShows, Summary, Receive, Handle, HandleAuth, HandleOpen, Step, Entry, Replied;
    ReplyRoundTrip(id, ok, s.replyIds[0], content);
    EntrySame(s, e);
    PacketStep(s, e, max);
    var p, m := e.recv.packet, Inbound(ReplyOk, id, 0, "");
    FreshReply(Entry(s, e), p, m, Body(m, p));
    OpenReply(Entry(s, e), p, Body(m, p));
  }

  // ---------- datagrams that end the session ----------

  /** A fresh datagram that does not release the retransmission loop, by the loop that receives it. */
  lemma FreshStep(s: Session, e: Turn, max: nat, m: Inbound, b: Inbound, lines: seq<Shown>)
    requires TakesPacket(s, e) && (s.mode.Waiting? ==> s.fsm != StartState)
    requires Header(e.recv.packet) == m && Body(m, e.recv.packet) == b && BodyShows(m, e.recv.packet) == lines
    requires m.typ in {Msg, Err, Bye} ==> m.id !in s.seen
    requires m.typ in {Msg, Err, Bye, InvalidMsg}
    ensures var t, p := Entry(s, e), e.recv.packet;
      Step(s, e, max) ==
        if s.mode.Waiting? then
          (if s.fsm == AuthState then HandleAuth(Show(t, lines), b) else HandleOpen(Show(t, lines), b, p))
        else if m.typ == Err then Leave(SendConfirm(Show(t, lines), m.id), true, EXIT_FAILURE)
        else if m.typ == InvalidMsg then ErrorExit(SendConfirm(t, ToId(t.counter)))
        else if s.fsm == OpenState then HandleOpen(Show(t, lines), b, p)
        else ErrorExit(SendConfirm(t, m.id))
  {
    hide Header, Body, BodyShows, Summary, Record, HandleAuth, HandleOpen, Leave, ErrorExit, SendConfirm, Step, Entry;
    EntrySame(s, e);
    PacketStep(s, e, max);
  }

  /** What is sent on the way out, in order: the CONFIRM, then BYE under the current number. */
  lemma ConfirmAndLeave(s: Session, id: Id)
    ensures Leave(SendConfirm(s, id), true, EXIT_FAILURE) == s.(
      log := s.log + [Sent(Confirm, id, ConfirmBytes(id), s.destPort),
                      Sent(Bye, s.counter, ByeBytes(ToId(s.counter)), s.destPort)],
      mode := Leaving(EXIT_FAILURE, 0))
  {
    hide Summary, Record, ConfirmBytes, ByeBytes;
    var c := Sent(Confirm, id, ConfirmBytes(id), s.destPort);
    var b := Sent(Bye, s.counter, ByeBytes(ToId(s.counter)), s.destPort);
    assert s.log + [c] + [b] == s.log + [c, b];
  }

  /** The answers to messages that end the session, by state. */
  lemma LastAnswers(t: Session, m: Inbound, p: Packet, lines: seq<Shown>)
    requires BodyShows(m, p) == lines
    ensures m.typ == Err ==>
      && HandleAuth(t, m) == Leave(SendConfirm(t, m.id), true, EXIT_FAILURE)
      && HandleOpen(t, m, p) == Leave(SendConfirm(Show(t, lines), m.id), true, EXIT_FAILURE)
    ensures m.typ == Msg ==> HandleAuth(t, m) == ErrorExit(SendConfirm(t, m.id))
    ensures m.typ == InvalidMsg ==>
      HandleAuth(t, m) == t && HandleOpen(t, m, p) == ErrorExit(SendConfirm(t, ToId(t.counter)))
  {
    hide Summary, Record, Leave, SendConfirm, ErrorExit, Show, BodyShows;
  }

  lemma ShowLog(t: Session, line: Shown)
    ensures Show(t, []) == t && Show(t, [line]) == t.(log := t.log + [Console(line)])
    ensures Show(Show(t, [line]), [line]) == t.(log := t.log + [Console(line), Console(line)])
  {
    hide Summary, Record;
    assert t.log + [Console(line)] + [Console(line)] == t.log + [Console(line), Console(line)];
  }

  /** Gone after sending the CONFIRM, ERR under the current number, and BYE under the next one. */
  function Complained(s: Session, id: Id): Session {
    s.(log := s.log + [Sent(Confirm, id, ConfirmBytes(id), s.destPort),
                       Sent(Err, s.counter, ErrBytes(ToId(s.counter), s.dname), s.destPort),
                       Sent(Bye, s.counter + 1, ByeBytes(ToId(s.counter + 1)), s.destPort)],
       counter := s.counter + 1, confirmPending := true, mode := Leaving(EXIT_FAILURE, 0))
  }

  lemma ConfirmAndComplain(s: Session, id: Id)
    ensures ErrorExit(SendConfirm(s, id)) == Complained(s, id)
  {
    hide Summary, Record, ConfirmBytes, ErrBytes, ByeBytes;
    var c, n := Sent(Confirm, id, ConfirmBytes(id), s.destPort), s.counter;
    var r := Sent(Err, n, ErrBytes(ToId(n), s.dname), s.destPort);
    var b := Sent(Bye, n + 1, ByeBytes(ToId(n + 1)), s.destPort);
    assert s.log + [c] + [r] + [b] == s.log + [c, r, b];
  }

  /** An ERR of the server is shown, confirmed and answered with BYE. In the open state the retransmission
      loop shows it twice. */
  lemma ErrEndsSession(s: Session, e: Turn, max: nat, id: Id, name: string, content: string)
    requires TakesPacket(s, e) && id !in s.seen && (s.mode.Waiting? ==> s.fsm != StartState)
    requires NulFree(name) && NulFree(content) && IsBytes(name) && IsBytes(content)
    requires 2 <= |name| + |content| <= BUFFER_SIZE - 5
    requires e.recv.packet == UdpEncode(Outcome(true, Err, true, name, []), id, content)
    ensures var line, t := Console(Shown(Err, id, name, content)), Entry(s, e);
      Step(s, e, max) == t.(
        log := t.log + (if s.mode.Waiting? && s.fsm == OpenState then [line, line] else [line])
                     + [Sent(Confirm, id, ConfirmBytes(id), s.destPort),
                        Sent(Bye, t.counter, ByeBytes(ToId(t.counter)), s.destPort)],
        mode := Leaving(EXIT_FAILURE, 0))
  {
    TextRoundTrip(Err, id, name, content);
    hide UdpEncode, Header, Body, BodyShows, Summary, Record, ConfirmBytes, ByeBytes, Leave, SendConfirm, ErrorExit,
      HandleAuth, HandleOpen, Show, Step, Entry;
    EntrySame(s, e);
    var t, m, line := Entry(s, e), Inbound(Err, id, 0, ""), Shown(Err, id, name, content);
    FreshStep(s, e, max, m, m, [line]);
    LastAnswers(Show(t, [line]), m, e.recv.packet, [line]);
    ShowLog(t, line);
    ConfirmAndLeave(Show(t, [line]), id);
    ConfirmAndLeave(Show(Show(t, [line]), [line]), id);
  }

  /** BYE of the server is confirmed and ends the program, with the exit code of a failure, and without a
      BYE in return. */
  lemma ByeEndsSession(s: Session, e: Turn, max: nat, id: Id)
    requires TakesPacket(s, e) && id !in s.seen && s.fsm == OpenState
    requires e.recv.packet == ByeBytes(id)
    ensures Step(s, e, max) == Entry(s, e).(
      log := Entry(s, e).log + [Sent(Confirm, id, ConfirmBytes(id), s.destPort)], mode := Exited(EXIT_FAILURE))
  {
    ConfirmByeRoundTrip(id);
    hide Header, Summary, Record, ConfirmBytes, ByeBytes, Step, Entry;
    EntrySame(s, e);
    var m := Inbound(Bye, id, 0, "");
    FreshStep(s, e, max, m, m, []);
  }

  /** A chat message before the open state is confirmed and ends the session with ERR and BYE; only the
      retransmission loop shows it. */
  lemma ChatBeforeOpen(s: Session, e: Turn, max: nat, id: Id, name: string, content: string)
    requires TakesPacket(s, e) && id !in s.seen && s.fsm != OpenState && (s.mode.Waiting? ==> s.fsm != StartState)
    requires NulFree(name) && NulFree(content) && IsBytes(name) && IsBytes(content)
    requires 2 <= |name| + |content| <= BUFFER_SIZE - 5
    requires e.recv.packet == UdpEncode(Outcome(true, Msg, true, name, []), id, content)
    ensures var t := Entry(s, e);
      Step(s, e, max) ==
        Complained(if s.mode.Waiting? then t.(log := t.log + [Console(Shown(Msg, id, name, content))]) else t, id)
  {
    TextRoundTrip(Msg, id, name, content);
    hide UdpEncode, Header, Body, BodyShows, Summary, Record, Complained, Leave, SendConfirm, ErrorExit,
      HandleAuth, HandleOpen, Show, Step, Entry, ToId;
    EntrySame(s, e);
    var t, m, line := Entry(s, e), Inbound(Msg, id, 0, ""), Shown(Msg, id, name, content);
    FreshStep(s, e, max, m, m, [line]);
    LastAnswers(Show(t, [line]), m, e.recv.packet, [line]);
    ShowLog(t, line);
    ConfirmAndComplain(Show(t, [line]), id);
    ConfirmAndComplain(t, id);
  }

  /** A datagram that is too short or of an unknown type is answered with a CONFIRM under the client's own
      counter, ERR and BYE, except that the retransmission loop ignores it before the open state. */
  lemma MalformedAnswered(s: Session, e: Turn, max: nat)
    requires TakesPacket(s, e) && (s.mode.Waiting? ==> s.fsm != StartState)
    requires Header(e.recv.packet).typ == InvalidMsg
    ensures var t := Entry(s, e);
      Step(s, e, max) ==
        if s.mode.Waiting? && s.fsm == AuthState then t
        else Complained(t, ToId(t.counter))
  {
    var m := Header(e.recv.packet);
    BodyKinds(e.recv.packet);
    hide Header, Body, BodyShows, Summary, Record, Complained, Leave, SendConfirm, ErrorExit,
      HandleAuth, HandleOpen, Show, Step, Entry, ToId;
    EntrySame(s, e);
    FreshStep(s, e, max, m, m, []);
    LastAnswers(Entry(s, e), m, e.recv.packet, []);
    ShowLog(Entry(s, e), Shown(Err, 0, "", ""));
    ConfirmAndComplain(Entry(s, e), ToId(Entry(s, e).counter));
  }

  /** A datagram whose id was handled before changes nothing and is not confirmed again, so a server whose
      CONFIRM was lost never gets another one. */
  lemma RepeatDropped(s: Session, e: Turn, max: nat)
    requires TakesPacket(s, e) && IsRepeat(e.recv.packet, s.seen)
    ensures Step(s, e, max) == Entry(s, e)
  {
    hide Summary, Step, Body, BodyShows, Dispatch;
    PacketStep(s, e, max);
  }
}
