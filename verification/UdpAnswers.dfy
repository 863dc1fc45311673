/** What the UDP client does in every turn that the other modules leave open: the ends of the waits, the end of
    the input, failures, and the datagrams that get some other answer than a delivered message. */
module UdpAnswers {
  import opened Chat
  import opened UserLine
  import opened UdpWire
  import opened UdpSession
  import opened UdpInvariants
  import opened UdpGate
  import opened UdpTurns
  import opened UdpDelivery
  import opened UdpNumbers

  // ---------- the retransmission loop ----------

  /** Gone after sending BYE under the current number, with the exit code of a failure. */
  function SaidBye(s: Session): Session {
    s.(log := s.log + [Sent(Bye, s.counter, ByeBytes(ToId(s.counter)), s.destPort)], mode := Leaving(EXIT_FAILURE, 0))
  }

  lemma LeaveSaysBye(s: Session)
    ensures Leave(s, true, EXIT_FAILURE) == SaidBye(s)
  {
    hide Summary, Record, ByeBytes;
  }

  /** A timeout of the wait: below the limit the message is repeated to the current port and counted; at the
      limit the client sends BYE under its current number and leaves with the code of a failure. */
  lemma TimeoutTurn(s: Session, e: Turn, max: nat)
    requires s.mode.Waiting? && e.recv.TimedOut?
    ensures Step(s, e, max) ==
      if s.mode.retries == max then SaidBye(s)
      else s.(log := s.log + [Resent(s.mode.bytes, s.destPort)], mode := s.mode.(retries := s.mode.retries + 1))
  {
    hide Summary, Record, Leave, SaidBye;
    LeaveSaysBye(s);
  }

  /** The awaited CONFIRM ends the wait, and leaves its id in the queue. */
  lemma ReleaseTurn(s: Session, e: Turn, max: nat)
    requires Releases(s, e)
    ensures Step(s, e, max) == Entry(s, e).(confirmPending := false, mode := Polling)
  {
    hide Summary, Record, IsConfirm;
  }

  /** Any other CONFIRM, outside the start state and in either loop, is dropped from the head of the queue of ids
      and clears the mark of the pending confirmation, if its id is there, and otherwise does nothing. */
  lemma OtherConfirm(s: Session, e: Turn, max: nat)
    requires TakesPacket(s, e) && !Releases(s, e) && s.fsm != StartState && Header(e.recv.packet).typ == Confirm
    ensures var t, ref := Entry(s, e), Header(e.recv.packet).ref;
      Step(s, e, max) ==
        if s.confirmIds != [] && s.confirmIds[0] == ref then
          t.(confirmIds := s.confirmIds[1..], confirmPending := false)
        else t
  {
    var p := e.recv.packet;
    BodyKinds(p);
    hide Summary, Record, Header, Body, BodyShows, Step, IsRepeat, Leave, ErrorExit, SendConfirm, TakeReply,
      TakeAuthReply;
    PacketStep(s, e, max);
    EntryQueue(s, e);
    ConfirmRepeats(s, p);
  }

  lemma EntryQueue(s: Session, e: Turn)
    requires TakesPacket(s, e)
    ensures var t := Entry(s, e); t.fsm == s.fsm && t.confirmIds == s.confirmIds && t.seen == s.seen
  {
    hide Summary, Record;
  }

  lemma ConfirmRepeats(s: Session, p: Packet)
    requires Header(p).typ == Confirm
    ensures !IsRepeat(p, s.seen) && BodyShows(Header(p), p) == []
  {
  }

  // ---------- the wait for the confirmation of BYE ----------

  /** The turn ends the wait for the confirmation of BYE: the receive fails, the limit of timeouts is reached, or
      the CONFIRM for the number of that BYE arrives. */
  predicate EndsFarewell(s: Session, e: Turn, max: nat)
    requires s.mode.Leaving?
  {
    match e.recv
    case RecvFailed => true
    case TimedOut => s.mode.tries == max
    case Datagram(packet, _) => Header(packet).typ == Confirm && Header(packet).ref == s.counter
  }

  /** The program exits with its code in exactly those turns; a timeout below the limit is counted, any other
      datagram is dropped, and nothing is sent. */
  lemma FarewellTurn(s: Session, e: Turn, max: nat)
    requires s.mode.Leaving?
    ensures var t := Step(s, e, max);
      && (t.mode == Exited(s.mode.code) <==> EndsFarewell(s, e, max))
      && (EndsFarewell(s, e, max) || t.mode == if e.recv.TimedOut? then s.mode.(tries := s.mode.tries + 1) else s.mode)
      && t == s.(mode := t.mode, log := t.log)
      && t.log == s.log + (if e.recv.Datagram? then [Got(e.recv.packet, e.recv.port)] else [])
  {
    hide Summary, Record, Header;
    assert s.log + [] == s.log;
  }

  /** Turn k finds the client waiting for the confirmation of BYE and does not end that wait. */
  predicate GoesOnWaiting(s: Session, script: seq<Turn>, max: nat, i: nat, k: nat)
    requires i <= k < |script|
  {
    var t := Run(s, script, max, i, k);
    t.mode.Leaving? && !EndsFarewell(t, script[k], max)
  }

  /** Over all runs: the client still waits after turns i to j if and only if none of them ended the wait. */
  lemma {:induction false} FarewellRun(s: Session, script: seq<Turn>, max: nat, i: nat, j: nat)
    requires i <= j <= |script| && s.mode.Leaving?
    ensures Run(s, script, max, i, j).mode.Leaving? <==> (forall k | i <= k < j :: GoesOnWaiting(s, script, max, i, k))
    decreases j - i
  {
    hide Step, GoesOnWaiting;
    if i < j {
      FarewellRun(s, script, max, i, j - 1);
      FarewellLast(s, script, max, i, j - 1);
    }
  }

  lemma FarewellLast(s: Session, script: seq<Turn>, max: nat, i: nat, k: nat)
    requires i <= k < |script| && s.mode.Leaving?
    ensures Run(s, script, max, i, k + 1).mode.Leaving? <==> GoesOnWaiting(s, script, max, i, k)
    ensures GoesOnWaiting(s, script, max, i, k) ==> Run(s, script, max, i, k).mode.Leaving?
  {
    hide Step, EndsFarewell;
    var t, e := Run(s, script, max, i, k), script[k];
    if t.mode.Leaving? {
      FarewellTurn(t, e, max);
    } else {
      FarewellOver(s, script, max, i, k);
    }
  }

  lemma {:induction false} FarewellOver(s: Session, script: seq<Turn>, max: nat, i: nat, j: nat)
    requires i <= j < |script| && s.mode.Leaving? && !Run(s, script, max, i, j).mode.Leaving?
    ensures !Step(Run(s, script, max, i, j), script[j], max).mode.Leaving?
    decreases j - i
  {
    hide Step;
    StillGone(s, script, max, i, j);
    ExitedStays(Run(s, script, max, i, j), script[j], max);
  }

  lemma {:induction false} StillGone(s: Session, script: seq<Turn>, max: nat, i: nat, j: nat)
    requires i <= j <= |script| && s.mode.Leaving?
    ensures Gone(Run(s, script, max, i, j))
    decreases j - i
  {
    hide Step;
    if i < j {
      StillGone(s, script, max, i, j - 1);
      LeavingEffect(Run(s, script, max, i, j - 1), script[j - 1], max);
    }
  }

  lemma ExitedStays(s: Session, e: Turn, max: nat)
    requires s.mode.Exited?
    ensures Step(s, e, max) == s
  {
  }

  // ---------- the poll loop without a datagram ----------

  /** The poll loop finds the end of the input. */
  predicate TakesEof(s: Session, e: Turn) {
    && s.mode.Polling? && e.poll.Revents? && !e.poll.socket
    && (if Gated(s) then s.stdinReady else e.poll.stdin) && e.stdin.Eof?
  }

  /** Something is wrong with poll, or with the socket that poll reported as readable. */
  predicate Fails(s: Session, e: Turn) {
    s.mode.Polling? && (e.poll.PollFailed? || (e.poll.socket && e.recv.RecvFailed?))
  }

  /** A turn of the poll loop without a datagram and without a line: the end of the input sends BYE and leaves, a
      failure leaves at once, both with the code of a failure; otherwise nothing happens but that poll reports
      on standard input, unless an answer is outstanding. */
  lemma IdleTurn(s: Session, e: Turn, max: nat)
    requires s.mode.Polling? && !TakesPacket(s, e) && !TakesLine(s, e)
    ensures Step(s, e, max) ==
      if Fails(s, e) then Awake(s, e).(mode := Exited(EXIT_FAILURE))
      else if TakesEof(s, e) then SaidBye(Awake(s, e))
      else Awake(s, e)
  {
    hide Summary, Record, UserInput, Receive, SaidBye;
    LeaveSaysBye(Awake(s, e));
  }

  /** Standard input is watched only by a poll with no answer outstanding; its bit then keeps its value. */
  lemma WatchTurn(s: Session, e: Turn, max: nat)
    ensures Step(s, e, max).stdinReady ==
      if s.mode.Polling? && !s.replyPending && !s.confirmPending && e.poll.Revents? then e.poll.stdin
      else s.stdinReady
  {
    hide Summary, StepPolling, StepWaiting, StepLeaving, Handle, Receive, UserInput, IsConfirm, Header, Body, Grammar,
      Entry;
    if TakesPacket(s, e) {
      EntryWatch(s, e);
    }
    match s.mode
    case Polling =>
      PollingEffect(s, e);
      if TakesLine(s, e) {
        InputWatch(Emit(Awake(s, e), Read(e.stdin.text)), e.stdin.text);
      } else if !TakesPacket(s, e) {
        IdleWatch(s, e);
      }
    case Waiting(_, _, _) =>
      WaitingEffect(s, e, max);
      if !TakesPacket(s, e) {
        WaitWatch(s, e, max);
      }
    case Leaving(_, _) => FarewellTurn(s, e, max);
    case Exited(_) =>
  }

  lemma EntryWatch(s: Session, e: Turn)
    requires TakesPacket(s, e)
    ensures Entry(s, e).stdinReady == if s.mode.Polling? && !Gated(s) then e.poll.stdin else s.stdinReady
  {
    hide Summary, Record;
  }

  lemma InputWatch(s: Session, line: string)
    ensures UserInput(s, line).stdinReady == s.stdinReady
  {
    hide Summary, Record, Grammar, UdpEncode, Deliver;
    var o := Grammar(line, s.dname);
    var t := s.(dname := if o.typ == Auth || o.typ == Rename then o.name else s.dname,
                counter := if o.ready then s.counter + 1 else s.counter);
    DeliverWatch(t, o.typ, s.counter, UdpEncode(o, ToId(s.counter), line));
  }

  lemma DeliverWatch(s: Session, typ: MsgType, num: nat, bytes: string)
    ensures Deliver(s, typ, num, bytes).stdinReady == s.stdinReady
  {
    hide Summary, Record;
    if s.fsm == OpenState {
      if typ == Join { } else { }
    }
  }

  lemma IdleWatch(s: Session, e: Turn)
    requires s.mode.Polling? && !TakesPacket(s, e) && !TakesLine(s, e)
    ensures StepPolling(s, e).stdinReady == Awake(s, e).stdinReady
  {
    IdleTurn(s, e, 0);
    StepCases(s, e, 0);
    hide Step, Summary, Record, StepPolling;
  }

  lemma WaitWatch(s: Session, e: Turn, max: nat)
    requires s.mode.Waiting? && !e.recv.Datagram?
    ensures StepWaiting(s, e, max).stdinReady == s.stdinReady
  {
    hide Summary, Record, ByeBytes;
  }

  /** A line that is not sent: only the name and, for a line that takes one, the number change. */
  lemma RefusedTurn(s: Session, e: Turn, max: nat)
    requires TakesLine(s, e) && !SendsLine(s, e)
    ensures Step(s, e, max) == Awake(s, e).(
      log := s.log + [Read(e.stdin.text)], dname := Named(e.stdin.text, s.dname),
      counter := if IsCounted(e.stdin.text) then s.counter + 1 else s.counter)
  {
    PollingEffect(s, e);
    StepCases(s, e, max);
    GrammarNamed(e.stdin.text, s.dname);
    GrammarCounted(e.stdin.text, s.dname);
    hide Summary, Record, Grammar, UdpEncode, Step, StepPolling, Named, IsCounted, Transmit, Request;
  }

  // ---------- datagrams before the open state ----------

  /** In the start state the poll loop answers everything but an ERR and what cannot be read with a CONFIRM for
      it, ERR and BYE; a CONFIRM, which has no id, with one for id 65535. */
  lemma StartAnswered(s: Session, e: Turn, max: nat)
    requires TakesPacket(s, e) && s.mode.Polling? && s.fsm == StartState && !IsRepeat(e.recv.packet, s.seen)
    requires Header(e.recv.packet).typ in {Confirm, ReplyOk, Msg, Bye}
    ensures var m := Header(e.recv.packet);
      && Step(s, e, max) == Complained(Entry(s, e), m.id)
      && (m.typ == Confirm ==> m.id == 0xFFFF)
  {
    ConfirmAndComplain(Entry(s, e), Header(e.recv.packet).id);
    ConfirmId(e.recv.packet);
    hide Summary, Record, Header, Body, BodyShows, Step, IsRepeat, ErrorExit, SendConfirm, Complained, Handle;
    EntryQueue(s, e);
    PacketStep(s, e, max);
  }

  lemma ConfirmId(p: Packet)
    ensures Header(p).typ == Confirm ==> Header(p).id == 0xFFFF
  {
  }

  /** A BYE in the authentication state: the poll loop answers it with a CONFIRM, ERR and BYE, the
      retransmission loop ignores it. */
  lemma ByeBeforeOpen(s: Session, e: Turn, max: nat)
    requires TakesPacket(s, e) && s.fsm == AuthState && !IsRepeat(e.recv.packet, s.seen)
    requires Header(e.recv.packet).typ == Bye
    ensures Step(s, e, max) ==
      if s.mode.Polling? then Complained(Entry(s, e), Header(e.recv.packet).id) else Entry(s, e)
  {
    var p := e.recv.packet;
    BodyKinds(p);
    ConfirmAndComplain(Entry(s, e), Header(p).id);
    ShowNothing(Entry(s, e));
    hide Summary, Record, Header, Body, BodyShows, Step, IsRepeat, ErrorExit, SendConfirm, Complained, Show, Leave;
    EntryQueue(s, e);
    ByeNotReleased(s, e);
    PacketStep(s, e, max);
  }

  lemma ByeNotReleased(s: Session, e: Turn)
    requires TakesPacket(s, e) && Header(e.recv.packet).typ != Confirm
    ensures !Releases(s, e)
  {
    hide Header;
  }

  // ---------- REPLYs to other requests, and messages that are too short ----------

  /** A new REPLY that answers no pending request, outside the start state: it is remembered and confirmed, and
      not printed. In the authentication state with a reply pending it may still move the port. */
  lemma UnmatchedReply(s: Session, e: Turn, max: nat)
    requires TakesPacket(s, e) && s.fsm != StartState && !IsRepeat(e.recv.packet, s.seen)
    requires var m := Body(Header(e.recv.packet), e.recv.packet); m.typ in {ReplyOk, ReplyNok} && !Answers(s, m)
    ensures var t, id := Entry(s, e), Header(e.recv.packet).id;
      var switches := s.fsm == AuthState && s.replyPending && s.portOpen;
      var dest := if switches then t.serverPort else s.destPort;
      Step(s, e, max) == t.(
        seen := s.seen + [id], portOpen := s.portOpen && !switches, destPort := dest,
        log := t.log + [Sent(Confirm, id, ConfirmBytes(id), dest)])
  {
    var p := e.recv.packet;
    BodyKinds(p);
    hide Summary, Record, Header, Body, BodyShows, Step, IsRepeat, Entry, HandleAuth, HandleOpen;
    EntrySame(s, e);
    EntryOpen(s, e);
    ByeNotReleased(s, e);
    PacketStep(s, e, max);
    ReplyHeader(p);
    FreshReply(Entry(s, e), p, Header(p), Body(Header(p), p));
    UnmatchedAnswer(Entry(s, e), Body(Header(p), p), p);
  }

  lemma EntryOpen(s: Session, e: Turn)
    requires TakesPacket(s, e)
    ensures Entry(s, e).portOpen == s.portOpen
  {
    hide Summary, Record;
  }

  lemma ReplyHeader(p: Packet)
    requires Body(Header(p), p).typ in {ReplyOk, ReplyNok}
    ensures Header(p).typ == ReplyOk && BodyShows(Header(p), p) == [] && Body(Header(p), p).id == Header(p).id
  {
  }

  lemma UnmatchedAnswer(t: Session, m: Inbound, p: Packet)
    requires t.fsm != StartState && m.typ in {ReplyOk, ReplyNok} && !Answers(t, m)
    ensures var switches := t.fsm == AuthState && t.replyPending && t.portOpen;
      var dest := if switches then t.serverPort else t.destPort;
      (if t.fsm == AuthState then HandleAuth(t, m) else HandleOpen(t, m, p)) == t.(
        seen := t.seen + [m.id], portOpen := t.portOpen && !switches, destPort := dest,
        log := t.log + [Sent(Confirm, m.id, ConfirmBytes(m.id), dest)])
  {
    hide Summary, Record, ConfirmBytes;
  }

  /** A REPLY of fewer than eight bytes: ignored in the authentication state, answered in the open state like a
      datagram of unknown type. */
  lemma ShortReplyAnswered(s: Session, e: Turn, max: nat)
    requires TakesPacket(s, e) && s.fsm != StartState && !IsRepeat(e.recv.packet, s.seen)
    requires Header(e.recv.packet).typ == ReplyOk && |e.recv.packet| < 8
    ensures var t := Entry(s, e);
      Step(s, e, max) == if s.fsm == AuthState then t else Complained(t, ToId(t.counter))
  {
    var p := e.recv.packet;
    var t := Entry(s, e);
    BodyKinds(p);
    ShortReplyBody(p);
    ConfirmAndComplain(t, ToId(t.counter));
    hide Summary, Record, Header, Body, BodyShows, Step, IsRepeat, Entry, HandleAuth, HandleOpen, ErrorExit,
      SendConfirm, Complained;
    EntrySame(s, e);
    ByeNotReleased(s, e);
    PacketStep(s, e, max);
    FreshReply(t, p, Header(p), Body(Header(p), p));
    LastAnswers(t, Body(Header(p), p), p, BodyShows(Body(Header(p), p), p));
  }

  lemma ShortReplyBody(p: Packet)
    requires Header(p).typ == ReplyOk && |p| < 8
    ensures Body(Header(p), p).typ == InvalidMsg && BodyShows(Header(p), p) == []
    ensures Header(p).id == Body(Header(p), p).id
  {
  }

  /** A MSG of fewer than seven bytes is answered like an ERR that shows nothing, except that the poll loop
      complains about it before the open state. */
  lemma ShortTextAnswered(s: Session, e: Turn, max: nat)
    requires TakesPacket(s, e) && (s.mode.Waiting? ==> s.fsm != StartState) && !IsRepeat(e.recv.packet, s.seen)
    requires Header(e.recv.packet).typ in {Msg, Err} && |e.recv.packet| < 7
    ensures var t, m := Entry(s, e), Header(e.recv.packet);
      Step(s, e, max) ==
        if m.typ == Msg && s.mode.Polling? && s.fsm != OpenState then Complained(t, m.id)
        else SaidBye(t.(log := t.log + [Sent(Confirm, m.id, ConfirmBytes(m.id), s.destPort)]))
  {
    var p := e.recv.packet;
    var t, m := Entry(s, e), Header(p);
    var b := Body(m, p);
    BodyKinds(p);
    ShortTextBody(p);
    NewText(s, p);
    hide Summary, Record, Header, Body, BodyShows, Step, IsRepeat, Entry, HandleAuth, HandleOpen, ErrorExit,
      SendConfirm, Complained, Leave, Show, SaidBye;
    EntrySame(s, e);
    FreshStep(s, e, max, m, b, []);
    ShowNothing(t);
    LastAnswers(t, b, p, []);
    ConfirmAndComplain(t, m.id);
    ConfirmSaysBye(t, m.id);
  }

  lemma NewText(s: Session, p: Packet)
    requires Header(p).typ in {Msg, Err} && !IsRepeat(p, s.seen)
    ensures Header(p).id !in s.seen
  {
  }

  lemma ShortTextBody(p: Packet)
    requires Header(p).typ in {Msg, Err} && |p| < 7
    ensures var m := Header(p);
      Body(m, p).typ == Err && Body(m, p).id == m.id && BodyShows(m, p) == [] && BodyShows(Body(m, p), p) == []
  {
  }

  lemma ConfirmSaysBye(t: Session, id: Id)
    ensures Leave(SendConfirm(t, id), true, EXIT_FAILURE)
         == SaidBye(t.(log := t.log + [Sent(Confirm, id, ConfirmBytes(id), t.destPort)]))
  {
    hide Summary, Record, ConfirmBytes, ByeBytes;
  }

  // ---------- the number of BYE ----------

  lemma FarewellNumber(s: Session, e: Turn, max: nat)
    requires s.mode.Leaving? && Proper(s) && e.recv.Datagram?
    ensures var h := Summary(s.log);
      && h.kinds != [] && h.kinds[|h.kinds| - 1] == Bye && h.numbers != []
      && (Step(s, e, max).mode.Exited? <==> IsConfirm(e.recv.packet, h.numbers[|h.numbers| - 1]))
  {
    hide Summary, Step, Header;
    FarewellTurn(s, e, max);
  }

  /** Over all runs: a datagram ends the wait for the confirmation of BYE exactly if it is a CONFIRM for the number
      of the last message sent, which is that BYE. */
  lemma FarewellOfRun(dest: Port, ready: bool, script: seq<Turn>, max: nat, n: nat)
    requires n < |script|
    ensures var s, e := Init(dest, ready), script[n];
      var t := Run(s, script, max, 0, n);
      var h := Summary(t.log);
      t.mode.Leaving? && e.recv.Datagram? ==>
        && h.kinds != [] && h.kinds[|h.kinds| - 1] == Bye && h.numbers != []
        && (Step(t, e, max).mode.Exited? <==> IsConfirm(e.recv.packet, h.numbers[|h.numbers| - 1]))
  {
    var t := Run(Init(dest, ready), script, max, 0, n);
    NumbersOfRun(dest, ready, script, max, n);
    hide Run, Step, Summary, Header, Errors, Counted, Proper, IsConfirm;
    if t.mode.Leaving? && script[n].recv.Datagram? {
      FarewellNumber(t, script[n], max);
    }
  }
}
