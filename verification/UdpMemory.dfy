/** Which ids the UDP client remembers: exactly when a received message is remembered, which ones are
    forgotten while the session goes on, and what that means for repeated datagrams over whole runs. */
module UdpMemory {
  import opened Chat
  import opened UserLine
  import opened UdpWire
  import opened UdpSession
  import opened UdpInvariants
  import opened UdpGate
  import opened UdpTurns
  import opened UdpDelivery

  /** The datagram carries an id of its own: everything but a CONFIRM and what cannot be read. */
  predicate HasId(p: Packet) {
    Header(p).typ in {ReplyOk, Msg, Err, Bye}
  }

  /** The messages that fsm_logic_handler remembers, after decoding. */
  predicate Memorable(fsm: FsmState, p: Packet) {
    var typ := Body(Header(p), p).typ;
    || (fsm != StartState && typ in {ReplyOk, ReplyNok})
    || (fsm == OpenState && typ == Msg)
  }

  predicate Remembers(s: Session, e: Turn) {
    TakesPacket(s, e) && !IsRepeat(e.recv.packet, s.seen) && Memorable(s.fsm, e.recv.packet)
  }

  predicate SeenAfter(s: Session, t: Session, more: bool, id: Id) {
    t.seen == if more then s.seen + [id] else s.seen
  }

  lemma ExitSeen(s: Session, lines: seq<Shown>, id: Id, bye: bool, code: int)
    ensures var t := SendConfirm(Show(s, lines), id);
      && Show(s, lines).seen == s.seen && t.seen == s.seen
      && Leave(t, bye, code).seen == s.seen && ErrorExit(t).seen == s.seen
  {
    hide Summary, Record, ConfirmBytes, ByeBytes, ErrBytes;
  }

  lemma ShowSeen(s: Session, lines: seq<Shown>, bye: bool, code: int)
    ensures var t := Show(s, lines); t.seen == s.seen && t.fsm == s.fsm && Leave(t, bye, code).seen == s.seen
  {
    hide Summary, Record, ByeBytes;
  }

  lemma AuthSeen(s: Session, m: Inbound)
    ensures SeenAfter(s, HandleAuth(s, m), m.typ in {ReplyOk, ReplyNok}, m.id)
  {
    hide Summary, Record, Leave, ErrorExit, Show, ConfirmBytes;
    ExitSeen(s, [], m.id, true, EXIT_FAILURE);
    ShowNothing(s);
  }

  lemma OpenSeen(s: Session, m: Inbound, p: Packet)
    ensures SeenAfter(s, HandleOpen(s, m, p), m.typ in {ReplyOk, ReplyNok, Msg}, m.id)
  {
    hide Summary, Record, Leave, ErrorExit, Show, ConfirmBytes, BodyShows;
    ExitSeen(s, [], m.id, false, EXIT_FAILURE);
    ExitSeen(s, [], ToId(s.counter), true, EXIT_FAILURE);
    ExitSeen(s, BodyShows(m, p), m.id, true, EXIT_FAILURE);
    ShowNothing(s);
  }

  lemma HandleSeen(s: Session, p: Packet, repeated: bool)
    ensures SeenAfter(s, Handle(s, Header(p), p, repeated), !repeated && Memorable(s.fsm, p), Header(p).id)
  {
    BodyKinds(p);
    hide Summary, Record, Header, Body, BodyShows, HandleAuth, HandleOpen, Leave, Show;
    var m := Header(p);
    var t := Show(s, BodyShows(m, p));
    ShowSeen(s, BodyShows(m, p), true, EXIT_FAILURE);
    AuthSeen(t, Body(m, p));
    OpenSeen(t, Body(m, p), p);
  }

  lemma ReceiveSeen(s: Session, p: Packet)
    ensures SeenAfter(s, Receive(s, p), !IsRepeat(p, s.seen) && Memorable(s.fsm, p), Header(p).id)
  {
    BodyKinds(p);
    hide Summary, Record, Header, Body, BodyShows, IsRepeat, Handle, Leave, ErrorExit, SendConfirm, Show;
    var m := Header(p);
    HandleSeen(s, p, false);
    ShowNothing(s);
    if m.typ == Err {
      ExitSeen(s, BodyShows(m, p), m.id, true, EXIT_FAILURE);
    } else {
      ExitSeen(s, [], m.id, true, EXIT_FAILURE);
      ExitSeen(s, [], ToId(s.counter), true, EXIT_FAILURE);
    }
  }

  lemma TransmitSeen(s: Session, typ: MsgType, num: nat, bytes: string)
    ensures Transmit(s, typ, num, bytes).seen == s.seen
  {
    hide Summary, Record;
  }

  lemma DeliverSeen(s: Session, typ: MsgType, num: nat, bytes: string)
    ensures Deliver(s, typ, num, bytes).seen == s.seen
  {
    hide Summary, Record, Transmit;
    var t := s.(replyIds := s.replyIds + [ToId(num)], replyPending := true);
    TransmitSeen(s, typ, num, bytes);
    TransmitSeen(t, typ, num, bytes);
    TransmitSeen(t.(fsm := AuthState), typ, num, bytes);
  }

  lemma SubmitSeen(s: Session, o: Outcome, bytes: string)
    ensures Submit(s, o, bytes).seen == s.seen
  {
    hide Summary, Record, Deliver;
    var named := s.(dname := if o.typ == Auth || o.typ == Rename then o.name else s.dname);
    DeliverSeen(named.(counter := s.counter + 1), o.typ, s.counter, bytes);
  }

  lemma QuietPolling(s: Session, e: Turn)
    requires s.mode.Polling? && !TakesPacket(s, e)
    ensures StepPolling(s, e).seen == s.seen
  {
    hide Summary, Record, Grammar, UdpEncode, Submit, Leave;
    var t := Awake(s, e);
    ShowNothing(t);
    ShowSeen(t, [], true, EXIT_FAILURE);
    ShowSeen(t, [], false, EXIT_FAILURE);
    if TakesLine(s, e) {
      var u := Emit(t, Read(e.stdin.text));
      var o := Grammar(e.stdin.text, u.dname);
      SubmitSeen(u, o, UdpEncode(o, ToId(u.counter), e.stdin.text));
    }
  }

  /** A turn that looks at no datagram, or is released by one, remembers nothing. */
  lemma QuietSeen(s: Session, e: Turn, max: nat)
    requires !TakesPacket(s, e) || Releases(s, e)
    ensures Step(s, e, max).seen == s.seen
  {
    hide Summary, Record, IsConfirm, StepPolling, Handle, Leave;
    if s.mode.Polling? {
      QuietPolling(s, e);
    } else if s.mode.Waiting? {
      ShowNothing(s);
      ShowSeen(s, [], true, EXIT_FAILURE);
    }
  }

  /** A message is remembered exactly when it is new and decodes, outside the start state, to a REPLY or, in
      the open state, to a MSG; its id then joins the end of the list. Nothing else changes the list. */
  lemma RememberedTurn(s: Session, e: Turn, max: nat)
    ensures Step(s, e, max).seen == if Remembers(s, e) then s.seen + [Header(e.recv.packet).id] else s.seen
  {
    if TakesPacket(s, e) && !Releases(s, e) {
      var p := e.recv.packet;
      hide Summary, Record, Step, Header, Body, IsRepeat, Handle, Receive, Entry, Memorable;
      PacketStep(s, e, max);
      EntrySame(s, e);
      HandleSeen(Entry(s, e), p, IsRepeat(p, s.seen));
      ReceiveSeen(Entry(s, e), p);
    } else {
      if TakesPacket(s, e) {
        BodyKinds(e.recv.packet);
      }
      QuietSeen(s, e, max);
    }
  }

  // ---------- forgotten messages ----------

  /** A new message with an id that is not remembered although the session goes on. */
  predicate Forgets(s: Session, e: Turn, max: nat) {
    && TakesPacket(s, e) && HasId(e.recv.packet) && !IsRepeat(e.recv.packet, s.seen)
    && Header(e.recv.packet).id !in Step(s, e, max).seen && Running(Step(s, e, max))
  }

  /** A REPLY too short to be decoded, or a BYE during a wait. */
  predicate Overlooked(s: Session, p: Packet) {
    (Header(p).typ == ReplyOk && |p| < 8) || (Header(p).typ == Bye && s.mode.Waiting?)
  }

  /** The messages that are forgotten are exactly the new ones, in the authentication state, that are REPLYs
      of fewer than eight bytes or BYEs received by the retransmission loop. */
  lemma ForgottenExact(s: Session, e: Turn, max: nat)
    ensures Forgets(s, e, max)
       <==> (TakesPacket(s, e) && s.fsm == AuthState && !IsRepeat(e.recv.packet, s.seen)
             && Overlooked(s, e.recv.packet))
  {
    if TakesPacket(s, e) && HasId(e.recv.packet) && !IsRepeat(e.recv.packet, s.seen) {
      var p := e.recv.packet;
      BodyLength(p);
      BodyKinds(p);
      hide Summary, Record, Step, Header, Body, Entry;
      EntrySame(s, e);
      NotReleased(s, e);
      PacketStep(s, e, max);
      RememberedTurn(s, e, max);
      GoesOn(Entry(s, e), p);
    }
  }

  lemma NotReleased(s: Session, e: Turn)
    requires TakesPacket(s, e) && HasId(e.recv.packet)
    ensures !Releases(s, e)
  {
    hide Header;
  }

  lemma BodyLength(p: Packet)
    ensures Header(p).typ == ReplyOk ==> (Body(Header(p), p).typ == InvalidMsg <==> |p| < 8)
  {
  }

  /** Which new messages with an id let the session go on, by the loop that receives them. */
  lemma GoesOn(t: Session, p: Packet)
    requires HasId(p) && !IsRepeat(p, t.seen) && Running(t)
    ensures var m := Header(p);
      var short := m.typ == ReplyOk && |p| < 8;
      && (Running(Handle(t, m, p, false)) <==>
            Memorable(t.fsm, p) || (t.fsm == AuthState && (short || m.typ == Bye)))
      && (Running(Receive(t, p)) <==> Memorable(t.fsm, p) || (t.fsm == AuthState && short))
  {
    BodyLength(p);
    BodyKinds(p);
    hide Summary, Record, Header, Body, BodyShows, HandleAuth, HandleOpen, Show, SendConfirm, Leave, ErrorExit;
    var m, b := Header(p), Body(Header(p), p);
    var u := Show(t, BodyShows(m, p));
    ShowRuns(t, BodyShows(m, p), m.id);
    AuthRuns(u, b);
    OpenRuns(u, b, p);
    ShowRuns(t, [], m.id);
    ShowNothing(t);
  }

  lemma ShowRuns(t: Session, lines: seq<Shown>, id: Id)
    ensures var u := Show(t, lines);
      && u.mode == t.mode && u.fsm == t.fsm
      && !Running(Leave(u, true, EXIT_FAILURE)) && !Running(Leave(SendConfirm(u, id), true, EXIT_FAILURE))
      && !Running(ErrorExit(SendConfirm(u, id)))
  {
    hide Summary, Record, ConfirmBytes, ByeBytes, ErrBytes;
  }

  lemma AuthRuns(t: Session, b: Inbound)
    requires Running(t) && b.typ in {ReplyOk, ReplyNok, Msg, Err, Bye, InvalidMsg}
    ensures Running(HandleAuth(t, b)) <==> b.typ in {ReplyOk, ReplyNok, Bye, InvalidMsg}
  {
    hide Summary, Record, ConfirmBytes, ByeBytes, ErrBytes;
  }

  lemma OpenRuns(t: Session, b: Inbound, p: Packet)
    requires Running(t) && b.typ in {ReplyOk, ReplyNok, Msg, Err, Bye, InvalidMsg}
    ensures Running(HandleOpen(t, b, p)) <==> b.typ in {ReplyOk, ReplyNok, Msg}
  {
    hide Summary, Record, ConfirmBytes, ByeBytes, ErrBytes, BodyShows;
  }

  // ---------- whole runs ----------

  /** Turn i of the run remembers the id. */
  predicate RemembersAt(s: Session, script: seq<Turn>, max: nat, i: nat, id: Id)
    requires i < |script|
  {
    var t := Run(s, script, max, 0, i);
    Remembers(t, script[i]) && TakesPacket(t, script[i]) && Header(script[i].recv.packet).id == id
  }

  /** Over all runs, the list holds exactly the ids that some earlier turn remembered. */
  lemma {:induction false} RememberedRun(dest: Port, ready: bool, script: seq<Turn>, max: nat, n: nat, id: Id)
    requires n <= |script|
    ensures var s := Init(dest, ready);
      id in Run(s, script, max, 0, n).seen <==> exists i | 0 <= i < n :: RemembersAt(s, script, max, i, id)
  {
    hide Step, Remembers, Header;
    var s := Init(dest, ready);
    if n > 0 {
      RememberedRun(dest, ready, script, max, n - 1, id);
      var t := Run(s, script, max, 0, n - 1);
      assert Run(s, script, max, 0, n) == Step(t, script[n - 1], max);
      RememberedTurn(t, script[n - 1], max);
      RemembersTakes(t, script[n - 1]);
      assert RemembersAt(s, script, max, n - 1, id)
        <==> Remembers(t, script[n - 1]) && Header(script[n - 1].recv.packet).id == id;
    }
  }

  lemma RemembersTakes(s: Session, e: Turn)
    ensures Remembers(s, e) ==> TakesPacket(s, e)
  {
  }

  /** Over all runs, a message is dropped without an answer exactly when some earlier turn remembered its id:
      the turn then changes nothing, and otherwise the message is not taken for a repetition. */
  lemma RepeatsOfRun(dest: Port, ready: bool, script: seq<Turn>, max: nat, k: nat)
    requires k < |script|
    ensures var s, e := Init(dest, ready), script[k];
      var t := Run(s, script, max, 0, k);
      TakesPacket(t, e) && HasId(e.recv.packet) ==>
        if exists i | 0 <= i < k :: RemembersAt(s, script, max, i, Header(e.recv.packet).id) then
          Step(t, e, max) == Entry(t, e)
        else !IsRepeat(e.recv.packet, t.seen)
  {
    var s, e := Init(dest, ready), script[k];
    var t := Run(s, script, max, 0, k);
    if TakesPacket(t, e) && HasId(e.recv.packet) {
      hide Step, Run, Header, Entry, RemembersAt;
      RememberedRun(dest, ready, script, max, k, Header(e.recv.packet).id);
      if IsRepeat(e.recv.packet, t.seen) {
        RepeatDropped(t, e, max);
      }
    }
  }
}
