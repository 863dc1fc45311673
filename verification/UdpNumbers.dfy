/** The numbers of the messages: what the counter counts, and which number BYE carries. */
module UdpNumbers {
  import opened Chat
  import opened UserLine
  import opened UdpWire
  import opened UdpSession
  import opened UdpInvariants
  import opened UdpGate
  import opened UdpTurns

  /** How many ERRs the client has sent. */
  function Errors(s: Session): nat {
    multiset(Summary(s.log).kinds)[Err]
  }

  /** The counter less the numbers that ERRs took. */
  function Balance(s: Session): int {
    s.counter - Errors(s)
  }

  /** While BYE waits for its confirmation, it is the last message sent, under the current number. */
  predicate Proper(s: Session) {
    var h := Summary(s.log);
    s.mode.Leaving? ==>
      && h.kinds != [] && h.kinds[|h.kinds| - 1] == Bye
      && h.numbers != [] && h.numbers[|h.numbers| - 1] == s.counter
  }

  /** From s to t no number was taken except for ERRs, and a BYE was sent under the current one. */
  predicate Books(s: Session, t: Session) {
    Balance(t) == Balance(s) && Proper(t)
  }

  lemma SameBooks(s: Session, t: Session)
    requires t.log == s.log && t.counter == s.counter && !t.mode.Leaving?
    ensures Books(s, t)
  {
    hide Summary;
  }

  lemma QuietBooks(s: Session, o: Obs)
    requires !s.mode.Leaving? && !o.Sent?
    ensures Books(s, Emit(s, o))
  {
    hide Summary;
  }

  lemma ConfirmBooks(s: Session, id: Id)
    requires !s.mode.Leaving?
    ensures Books(s, SendConfirm(s, id))
  {
    hide Summary, Record, ConfirmBytes;
    RecordConfirm(Summary(s.log), id, ConfirmBytes(id), s.destPort);
  }

  lemma ShowBooks(s: Session, lines: seq<Shown>)
    requires !s.mode.Leaving?
    ensures Books(s, Show(s, lines))
    ensures var t := Show(s, lines); t.mode == s.mode && t.fsm == s.fsm
  {
    hide Summary, Record, Books;
    if lines != [] {
      QuietBooks(s, Console(lines[0]));
    } else {
      SameBooks(s, s);
    }
  }

  lemma AppendKind(w: seq<MsgType>, typ: MsgType)
    ensures multiset(w + [typ]) == multiset(w) + multiset{typ}
  {
  }

  lemma LeaveBooks(s: Session, bye: bool, code: int)
    requires !s.mode.Leaving?
    ensures Books(s, Leave(s, bye, code))
  {
    hide Summary, Record, ByeBytes;
    RecordOwn(Summary(s.log), Bye, s.counter, ByeBytes(ToId(s.counter)), s.destPort);
    AppendKind(Summary(s.log).kinds, Bye);
  }

  lemma ErrorExitBooks(s: Session)
    requires !s.mode.Leaving?
    ensures Books(s, ErrorExit(s))
  {
    hide Summary, Record, ByeBytes, ErrBytes, Leave;
    var c := ErrBytes(ToId(s.counter), s.dname);
    RecordOwn(Summary(s.log), Err, s.counter, c, s.destPort);
    AppendKind(Summary(s.log).kinds, Err);
    var t := Emit(s, Sent(Err, s.counter, c, s.destPort)).(counter := s.counter + 1, confirmPending := true);
    LeaveBooks(t, true, EXIT_FAILURE);
  }

  /** Possibly showing, confirming, and leaving. */
  lemma ExitBooks(s: Session, lines: seq<Shown>, id: Id, bye: bool, code: int)
    requires !s.mode.Leaving?
    ensures var t := SendConfirm(Show(s, lines), id);
      Books(s, t) && Books(s, Leave(t, bye, code)) && Books(s, ErrorExit(t))
  {
    hide Summary, Record, ConfirmBytes, Leave, ErrorExit, Proper, Balance;
    ShowBooks(s, lines);
    var t := Show(s, lines);
    ConfirmBooks(t, id);
    LeaveBooks(SendConfirm(t, id), bye, code);
    ErrorExitBooks(SendConfirm(t, id));
  }

  lemma ReplyBooks(s: Session, m: Inbound)
    requires !s.mode.Leaving?
    ensures Books(s, SendConfirm(TakeReply(s, m), m.id))
  {
    hide Summary, Record, ConfirmBytes, SendConfirm, Proper, Balance;
    var t := s.(replyIds := if s.replyIds == [] then [] else s.replyIds[1..], replyPending := false);
    SameBooks(s, s);
    SameBooks(s, t);
    QuietBooks(t, Printed(m.id, m.ref, m.text));
    ConfirmBooks(TakeReply(s, m), m.id);
  }

  lemma AuthBooks(s: Session, m: Inbound)
    requires !s.mode.Leaving? && s.fsm == AuthState
    ensures Books(s, HandleAuth(s, m))
  {
    hide Summary, Record, Leave, ErrorExit, SendConfirm, TakeReply, Proper, Balance;
    if m.typ in {ReplyOk, ReplyNok} {
      var u := SwitchPort(s.(seen := s.seen + [m.id]));
      var v := if Answers(s, m) && m.typ == ReplyOk then u.(fsm := OpenState) else u;
      AuthReplySplit(s.(seen := s.seen + [m.id]), m);
      SameBooks(s, v);
      ReplyBooks(v, m);
    } else if m.typ == Confirm {
      SameBooks(s, TakeConfirm(s, m.ref));
    } else {
      SameBooks(s, s);
      ShowNothing(s);
      ExitBooks(s, [], m.id, true, EXIT_FAILURE);
    }
  }

  lemma OpenBooks(s: Session, m: Inbound, p: Packet)
    requires !s.mode.Leaving? && s.fsm == OpenState
    ensures Books(s, HandleOpen(s, m, p))
  {
    hide Summary, Record, Leave, ErrorExit, SendConfirm, TakeReply, Show, BodyShows, Proper, Balance;
    ShowNothing(s);
    if m.typ in {ReplyOk, ReplyNok, Msg} {
      var t := s.(seen := s.seen + [m.id]);
      SameBooks(s, t);
      ReplyBooks(t, m);
      ShowNothing(t);
      ExitBooks(t, [], m.id, false, 0);
    } else if m.typ == Confirm {
      SameBooks(s, TakeConfirm(s, m.ref));
    } else if m.typ == Err {
      ExitBooks(s, BodyShows(m, p), m.id, true, EXIT_FAILURE);
    } else if m.typ == Bye {
      ExitBooks(s, [], m.id, false, EXIT_FAILURE);
    } else {
      ExitBooks(s, [], ToId(s.counter), true, EXIT_FAILURE);
    }
  }

  lemma HandleBooks(s: Session, p: Packet, repeated: bool)
    requires !s.mode.Leaving?
    ensures Books(s, Handle(s, Header(p), p, repeated))
  {
    hide Summary, Record, Header, Body, BodyShows, HandleAuth, HandleOpen, Leave, Show, Proper, Balance;
    var m := Header(p);
    var t := Show(s, BodyShows(m, p));
    SameBooks(s, s);
    ShowBooks(s, BodyShows(m, p));
    if s.fsm == StartState {
      LeaveBooks(t, true, EXIT_FAILURE);
    } else if s.fsm == AuthState {
      AuthBooks(t, Body(m, p));
    } else {
      OpenBooks(t, Body(m, p), p);
    }
  }

  lemma ReceiveBooks(s: Session, p: Packet)
    requires !s.mode.Leaving?
    ensures Books(s, Receive(s, p))
  {
    hide Summary, Record, Header, Body, BodyShows, IsRepeat, Handle, Leave, ErrorExit, SendConfirm, Show, Proper,
      Balance;
    var m := Header(p);
    SameBooks(s, s);
    HandleBooks(s, p, false);
    ShowNothing(s);
    if m.typ == Err {
      ExitBooks(s, BodyShows(m, p), m.id, true, EXIT_FAILURE);
    } else if m.typ == InvalidMsg {
      ExitBooks(s, [], ToId(s.counter), true, EXIT_FAILURE);
    } else {
      ExitBooks(s, [], m.id, true, EXIT_FAILURE);
    }
  }

  lemma TransmitBooks(s: Session, typ: MsgType, num: nat, bytes: string)
    requires IsUserType(typ)
    ensures Books(s, Transmit(s, typ, num, bytes))
  {
    hide Summary, Record;
    RecordUser(Summary(s.log), typ, num, bytes, s.destPort);
    AppendKind(Summary(s.log).kinds, typ);
  }

  lemma DeliverBooks(s: Session, typ: MsgType, num: nat, bytes: string)
    requires s.mode.Polling? && typ in {Auth, Join, Msg, UserCmd}
    ensures Books(s, Deliver(s, typ, num, bytes))
  {
    hide Summary, Record, Transmit, Proper, Balance;
    var t := s.(replyIds := s.replyIds + [ToId(num)], replyPending := true);
    SameBooks(s, s);
    SameBooks(s, t);
    SameBooks(s, t.(fsm := AuthState));
    TransmitBooks(s, typ, num, bytes);
    TransmitBooks(t, typ, num, bytes);
    TransmitBooks(t.(fsm := AuthState), typ, num, bytes);
  }

  lemma InputBooks(s: Session, line: string)
    requires s.mode.Polling?
    ensures var t := UserInput(s, line);
      Balance(t) == Balance(s) + (if IsCounted(line) then 1 else 0) && Proper(t)
  {
    GrammarCounted(line, s.dname);
    GrammarReady(line, s.dname);
    hide Summary, Record, Grammar, UdpEncode, Deliver, IsCounted;
    var o := Grammar(line, s.dname);
    var t := s.(dname := if o.typ == Auth || o.typ == Rename then o.name else s.dname,
                counter := if o.ready then s.counter + 1 else s.counter);
    if o.ready {
      DeliverBooks(t, o.typ, s.counter, UdpEncode(o, ToId(s.counter), line));
    }
  }

  // ---------- turns ----------

  /** A turn that takes a line which takes a number. */
  predicate CountsLine(s: Session, e: Turn) {
    TakesLine(s, e) && IsCounted(e.stdin.text)
  }

  predicate Numbered(s: Session, e: Turn, t: Session) {
    Balance(t) == Balance(s) + (if CountsLine(s, e) then 1 else 0) && Proper(t)
  }

  lemma PollingNumber(s: Session, e: Turn)
    requires s.mode.Polling?
    ensures Numbered(s, e, StepPolling(s, e))
  {
    hide Summary, Record, UserInput, Leave, Receive, Proper, Balance, IsCounted;
    var t := Awake(s, e);
    SameBooks(s, t);
    LeaveBooks(t, false, EXIT_FAILURE);
    LeaveBooks(t, true, EXIT_FAILURE);
    if TakesLine(s, e) {
      QuietBooks(t, Read(e.stdin.text));
      InputBooks(Emit(t, Read(e.stdin.text)), e.stdin.text);
    } else if TakesPacket(s, e) {
      var u := t.(serverPort := e.recv.port);
      SameBooks(s, u);
      QuietBooks(u, Got(e.recv.packet, e.recv.port));
      ReceiveBooks(Entry(s, e), e.recv.packet);
    }
  }

  lemma WaitingNumber(s: Session, e: Turn, max: nat)
    requires s.mode.Waiting?
    ensures Numbered(s, e, StepWaiting(s, e, max))
  {
    hide Summary, Record, Leave, Handle, Header, IsRepeat, IsConfirm, Proper, Balance;
    match e.recv
    case TimedOut =>
      var t := Emit(s, Resent(s.mode.bytes, s.destPort));
      LeaveBooks(s, true, EXIT_FAILURE);
      QuietBooks(s, Resent(s.mode.bytes, s.destPort));
      SameBooks(t, t.(mode := s.mode.(retries := s.mode.retries + 1)));
    case RecvFailed => SameBooks(s, s.(mode := Polling));
    case Datagram(packet, port) =>
      var t := Emit(s, Got(packet, port));
      QuietBooks(s, Got(packet, port));
      SameBooks(t, t.(confirmPending := false, mode := Polling));
      HandleBooks(t, packet, IsRepeat(packet, s.seen));
  }

  lemma LeavingNumber(s: Session, e: Turn, max: nat)
    requires s.mode.Leaving? && Proper(s)
    ensures Numbered(s, e, StepLeaving(s, e, max))
  {
    hide Summary, Record, IsConfirm, Monitor;
    if e.recv.Datagram? {
      RecordGot(Summary(s.log), e.recv.packet, e.recv.port);
    }
  }

  /** The counter grows by one exactly for a blank line, a good request or a chat line, in whatever state it is
      taken and whether or not it is sent, and for every ERR. A BYE is sent under the number that the counter
      then has. */
  lemma NumberTurn(s: Session, e: Turn, max: nat)
    requires Proper(s)
    ensures var t := Step(s, e, max);
      && t.counter == s.counter + (if CountsLine(s, e) then 1 else 0) + (Errors(t) - Errors(s))
      && Proper(t)
  {
    hide Summary, StepPolling, StepWaiting, StepLeaving, Proper, TakesLine, IsCounted;
    match s.mode
    case Polling => PollingNumber(s, e);
    case Waiting(_, _, _) => WaitingNumber(s, e, max);
    case Leaving(_, _) => LeavingNumber(s, e, max);
    case Exited(_) => ExitedTakesNothing(s, e);
  }

  lemma ExitedTakesNothing(s: Session, e: Turn)
    requires !s.mode.Polling?
    ensures !CountsLine(s, e)
  {
    hide IsCounted;
  }

  // ---------- whole runs ----------

  /** The lines before turn n that took a number. */
  function Counted(s: Session, script: seq<Turn>, max: nat, n: nat): nat
    requires n <= |script|
  {
    if n == 0 then 0
    else
      Counted(s, script, max, n - 1) + (if CountsLine(Run(s, script, max, 0, n - 1), script[n - 1]) then 1 else 0)
  }

  /** Over all runs, the counter is the number of such lines and of ERRs so far; while BYE waits for its
      confirmation, it is the last message sent, and the counter is its number. */
  lemma {:induction false} NumbersOfRun(dest: Port, ready: bool, script: seq<Turn>, max: nat, n: nat)
    requires n <= |script|
    ensures var s := Init(dest, ready);
      var t := Run(s, script, max, 0, n);
      t.counter == Counted(s, script, max, n) + Errors(t) && Proper(t)
  {
    hide Step, CountsLine, Errors, Proper;
    if n > 0 {
      NumbersOfRun(dest, ready, script, max, n - 1);
      NumberTurn(Run(Init(dest, ready), script, max, 0, n - 1), script[n - 1], max);
    } else {
      InitBooks(dest, ready);
    }
  }

  lemma InitBooks(dest: Port, ready: bool)
    ensures Errors(Init(dest, ready)) == 0 && Proper(Init(dest, ready))
  {
    EmptySummary();
  }

  /** Over all runs, while the client runs the next message of the user has as its number the count of the lines
      before it that took one, so the first /auth after a refused line is not message 0. */
  lemma NumberOfMessage(dest: Port, ready: bool, script: seq<Turn>, max: nat, n: nat)
    requires n <= |script|
    ensures var s := Init(dest, ready);
      var t := Run(s, script, max, 0, n);
      Running(t) ==> t.counter == Counted(s, script, max, n)
  {
    var t := Run(Init(dest, ready), script, max, 0, n);
    NumbersOfRun(dest, ready, script, max, n);
    InitInv(dest, ready);
    RunInv(Init(dest, ready), script, max, 0, n);
    hide Run, Counted, Summary, Talk, Shape, AtMostOnce, Numbering;
    if Running(t) {
      SpeechTalks(t);
      TalkHasNoErr(Summary(t.log).kinds);
    }
  }

  lemma TalkHasNoErr(w: seq<MsgType>)
    requires Talk(w)
    ensures multiset(w)[Err] == 0
  {
    assert Err !in w;
  }
}
