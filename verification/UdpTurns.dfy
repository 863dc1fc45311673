/** What one turn of the UDP client does, seen from the poll gate. */
module UdpTurns {
  import opened Chat
  import opened UserLine
  import opened UdpWire
  import opened UdpSession
  import opened UdpGate

  function Last(s: seq<Id>): int {
    if s == [] then -1 else s[|s| - 1]
  }

  // ---------- the poll gate ----------

  /** While an answer is outstanding, poll watches the socket only. A wake-up that does not report
      POLLIN for the socket then falls through to the bit that an earlier poll left for standard input. */
  predicate StaleRead(s: Session, e: Turn) {
    s.mode.Polling? && Gated(s) && e.poll.Revents? && !e.poll.socket && s.stdinReady
  }

  /** The line is a request that will be sent: /auth before the open state, /join in it. */
  predicate Asks(s: Session, o: Outcome) {
    o.ready && o.typ == if s.fsm == OpenState then Join else Auth
  }

  /** The line will be sent: /auth before the open state, anything but /auth in it. */
  predicate Sends(s: Session, o: Outcome) {
    o.ready && if s.fsm == OpenState then o.typ != Auth else o.typ == Auth
  }

  /** At such a wake-up a second request is taken while the reply to the first is still missing. */
  predicate DoubleRequest(s: Session, e: Turn) {
    && StaleRead(s, e) && s.replyPending
    && e.stdin.Line? && e.stdin.text != "" && Asks(s, Grammar(e.stdin.text, s.dname))
  }

  /** A turn that takes user input. */
  predicate TakesLine(s: Session, e: Turn) {
    && s.mode.Polling? && e.poll.Revents? && !e.poll.socket
    && (if Gated(s) then s.stdinReady else e.poll.stdin)
    && e.stdin.Line? && e.stdin.text != ""
  }

  /** A turn that sends a message of the user. */
  predicate SendsLine(s: Session, e: Turn) {
    TakesLine(s, e) && Sends(s, Grammar(e.stdin.text, s.dname))
  }

  predicate TakesPacket(s: Session, e: Turn) {
    && e.recv.Datagram?
    && ((s.mode.Polling? && e.poll.Revents? && e.poll.socket) || s.mode.Waiting?)
  }

  /** The state in which a received datagram is looked at. */
  function Entry(s: Session, e: Turn): Session
    requires TakesPacket(s, e)
  {
    var t := if s.mode.Polling? then
               (if Gated(s) then s else s.(stdinReady := e.poll.stdin)).(serverPort := e.recv.port)
             else s;
    Emit(t, Got(e.recv.packet, e.recv.port))
  }

  predicate Releases(s: Session, e: Turn) {
    s.mode.Waiting? && s.confirmPending && e.recv.Datagram? && IsConfirm(e.recv.packet, s.mode.id)
  }

  function Awake(s: Session, e: Turn): Session {
    if s.mode.Polling? && !Gated(s) && e.poll.Revents? then s.(stdinReady := e.poll.stdin) else s
  }

  /** Turns that neither take a user line nor look at a datagram of the running session. */
  predicate Calm(s: Session, t: Session) {
    && SamePort(s, t) && Aimed(s, t) && SameRequest(s, t) && t.fsm == s.fsm && t.dname == s.dname
    && t.serverPort == s.serverPort
    && var g, h := Summary(s.log), Summary(t.log);
    && h.users == g.users && h.requests == g.requests && h.auths == g.auths && h.chats == g.chats
    && h.lines == g.lines && (h.wait == g.wait || s.mode.Leaving?)
  }

  lemma PollingEffect(s: Session, e: Turn)
    requires s.mode.Polling?
    ensures var t := StepPolling(s, e);
      if TakesLine(s, e) then t == UserInput(Emit(Awake(s, e), Read(e.stdin.text)), e.stdin.text)
      else if TakesPacket(s, e) then Effect(Entry(s, e), t, Body(Header(e.recv.packet), e.recv.packet))
      else Calm(s, t) && Summary(t.log).wait == Summary(s.log).wait && (t.mode == s.mode || Gone(t))
  {
    hide Summary, UserInput, Leave, Receive, Body, Header, Effect;
    var t := Awake(s, e);
    MildLeave(t, false, EXIT_FAILURE);
    MildLeave(t, true, EXIT_FAILURE);
    if TakesLine(s, e) {
    } else if TakesPacket(s, e) {
      ReceiveEffect(Entry(s, e), e.recv.packet);
    } else {
    }
  }

  lemma WaitingEffect(s: Session, e: Turn, max: nat)
    requires s.mode.Waiting?
    ensures var t := StepWaiting(s, e, max);
      if TakesPacket(s, e) then
        if Releases(s, e) then t == Entry(s, e).(confirmPending := false, mode := Polling)
        else Effect(Entry(s, e), t, Body(Header(e.recv.packet), e.recv.packet))
      else
        && Calm(s, t) && Summary(t.log).wait == Summary(s.log).wait
        && (Gone(t) || t.confirmPending == s.confirmPending)
        && (Gone(t) || t.mode == if e.recv.TimedOut? then s.mode.(retries := s.mode.retries + 1) else Polling)
  {
    hide Summary, Leave, Handle, Body, Header, IsRepeat, IsConfirm, Effect;
    MildLeave(s, true, EXIT_FAILURE);
    if TakesPacket(s, e) {
      HandleEffect(Entry(s, e), e.recv.packet, IsRepeat(e.recv.packet, s.seen));
    } else {
    }
  }

  lemma LeavingEffect(s: Session, e: Turn, max: nat)
    requires Gone(s)
    ensures Calm(s, Step(s, e, max)) || (s.mode.Exited? && Step(s, e, max) == s)
    ensures Gone(Step(s, e, max))
  {
    hide Summary, Record, Monitor, IsConfirm, StepPolling, StepWaiting;
    if s.mode.Leaving? && e.recv.Datagram? {
      RecordGot(Summary(s.log), e.recv.packet, e.recv.port);
    }
  }

  /** What submitting a parsed line can do. */
  predicate SubmitEffect(s: Session, t: Session, typ: MsgType) {
    var g, h, id := Summary(s.log), Summary(t.log), ToId(s.counter);
    && SamePort(s, t) && t.serverPort == s.serverPort && Aimed(s, t) && h.lines == g.lines && h.replies == g.replies
    && if t.mode == s.mode then
         && t.log == s.log && t.fsm == s.fsm && t.confirmIds == s.confirmIds
         && t.replyIds == s.replyIds && t.replyPending == s.replyPending
       else
         && t.mode.Waiting? && t.mode.id == id && t.mode.retries == 0 && t.confirmPending
         && h.wait == (if g.wait.Free? then Outstanding(id) else Violated)
         && t.confirmIds == s.confirmIds + [id] && h.users == g.users + [id]
         && (if typ == Auth then s.fsm != OpenState else s.fsm == OpenState)
         && t.fsm == (if typ == Auth then AuthState else s.fsm)
         && h.auths == (if typ == Auth then g.auths + [id] else g.auths)
         && h.chats == (if typ == Auth then g.chats else g.chats + [id])
         && if typ in {Auth, Join} then
              h.requests == g.requests + [id] && t.replyIds == s.replyIds + [id] && t.replyPending
            else
              h.requests == g.requests && t.replyIds == s.replyIds && t.replyPending == s.replyPending
  }

  /** The first transmission of a message of the user. */
  predicate Transmits(s: Session, t: Session, typ: MsgType, id: Id) {
    var g, h := Summary(s.log), Summary(t.log);
    && t.mode.Waiting? && t.mode.id == id && t.mode.retries == 0 && t.confirmPending
    && SamePort(s, t) && t.serverPort == s.serverPort && Aimed(s, t)
    && t.fsm == s.fsm && t.replyIds == s.replyIds && t.replyPending == s.replyPending
    && t.confirmIds == s.confirmIds + [id]
    && h.lines == g.lines && h.replies == g.replies && h.users == g.users + [id]
    && h.wait == (if g.wait.Free? then Outstanding(id) else Violated)
    && h.auths == (if typ == Auth then g.auths + [id] else g.auths)
    && h.chats == (if typ == Auth then g.chats else g.chats + [id])
    && h.requests == (if typ in {Auth, Join} then g.requests + [id] else g.requests)
  }

  lemma TransmitDoes(s: Session, typ: MsgType, num: nat, bytes: string)
    requires IsUserType(typ)
    ensures Transmits(s, Transmit(s, typ, num, bytes), typ, ToId(num))
  {
    hide Summary, Record;
    RecordUser(Summary(s.log), typ, num, bytes, s.destPort);
  }

  lemma SubmitDoes(s: Session, o: Outcome, bytes: string)
    requires s.mode.Polling? && (o.ready ==> o.typ in {UserCmd, Auth, Join, Msg})
    ensures SubmitEffect(s, Submit(s, o, bytes), o.typ)
  {
    hide Summary, Record, Transmit;
    var num := s.counter;
    var t := s.(dname := if o.typ == Auth || o.typ == Rename then o.name else s.dname, counter := num + 1);
    var u := t.(replyIds := s.replyIds + [ToId(num)], replyPending := true);
    if !o.ready {
    } else if s.fsm == OpenState {
      TransmitDoes(if o.typ == Join then u else t, o.typ, num, bytes);
    } else if o.typ == Auth {
      TransmitDoes(if s.fsm == StartState then u.(fsm := AuthState) else u, Auth, num, bytes);
    }
  }

  lemma SubmitAsks(s: Session, o: Outcome, bytes: string)
    requires s.mode.Polling?
    ensures Asks(s, o) <==> Submit(s, o, bytes).mode.Waiting? && o.typ in {Auth, Join}
    ensures Sends(s, o) <==> Submit(s, o, bytes).mode.Waiting?
  {
    hide Summary, Record;
  }

  lemma LineDoes(s: Session, e: Turn)
    requires s.mode.Polling? && TakesLine(s, e)
    ensures SubmitEffect(Emit(Awake(s, e), Read(e.stdin.text)), StepPolling(s, e), Grammar(e.stdin.text, s.dname).typ)
    ensures var o := Grammar(e.stdin.text, s.dname);
      Asks(s, o) <==> StepPolling(s, e).mode.Waiting? && o.typ in {Auth, Join}
    ensures SendsLine(s, e) <==> StepPolling(s, e).mode.Waiting?
    ensures Summary(Emit(Awake(s, e), Read(e.stdin.text)).log) == Summary(s.log).(lines := Summary(s.log).lines + 1)
  {
    hide Summary, Submit, Grammar, UdpEncode, Receive, Leave, SubmitEffect, TakesPacket;
    var u := Emit(Awake(s, e), Read(e.stdin.text));
    GrammarReady(e.stdin.text, u.dname);
    var o := Grammar(e.stdin.text, u.dname);
    SubmitDoes(u, o, UdpEncode(o, ToId(u.counter), e.stdin.text));
    SubmitAsks(u, o, UdpEncode(o, ToId(u.counter), e.stdin.text));
  }

  /** A line is taken from a blocked user exactly at such a wake-up. */
  lemma GateExact(s: Session, e: Turn, max: nat)
    requires Gated(s)
    ensures Summary(Step(s, e, max).log).lines > Summary(s.log).lines
       <==> StaleRead(s, e) && e.stdin.Line? && e.stdin.text != ""
  {
    hide Summary, StepPolling, StepWaiting, StepLeaving, Handle, Receive, UserInput, IsConfirm, Header, Body, Grammar;
    match s.mode
    case Polling =>
      PollingEffect(s, e);
      if TakesLine(s, e) {
        LineDoes(s, e);
      }
    case Waiting(_, _, _) => WaitingEffect(s, e, max);
    case Leaving(_, _) => LeavingEffect(s, e, max);
    case Exited(_) =>
  }
}
