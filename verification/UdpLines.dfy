/** What lines of the user do to the display name and what reaches the wire: the exact datagram of every
    message that the UDP client sends, over whole runs. */
module UdpLines {
  import opened Chat
  import opened UserLine
  import opened UdpWire
  import opened UdpSession
  import opened UdpInvariants
  import opened UdpGate
  import opened UdpTurns

  // ---------- the display name ----------

  lemma SubmitNames(s: Session, o: Outcome, bytes: string)
    ensures Submit(s, o, bytes).dname == if o.typ == Auth || o.typ == Rename then o.name else s.dname
  {
    hide Summary, Record;
  }

  lemma LineNames(s: Session, e: Turn)
    requires TakesLine(s, e)
    ensures StepPolling(s, e).dname == Named(e.stdin.text, s.dname)
  {
    PollingEffect(s, e);
    hide Summary, Record, Grammar, UdpEncode, Submit, StepPolling;
    var u := Emit(Awake(s, e), Read(e.stdin.text));
    var o := Grammar(e.stdin.text, u.dname);
    SubmitNames(u, o, UdpEncode(o, ToId(u.counter), e.stdin.text));
    GrammarNamed(e.stdin.text, s.dname);
  }

  lemma EntryNames(s: Session, e: Turn)
    requires TakesPacket(s, e)
    ensures Entry(s, e).dname == s.dname
  {
    hide Summary, Record;
  }

  /** The display name changes exactly when a line with a good /auth or /rename is taken, in whatever state the
      session is and whether or not the request is sent. */
  lemma NameTurn(s: Session, e: Turn, max: nat)
    ensures Step(s, e, max).dname == if TakesLine(s, e) then Named(e.stdin.text, s.dname) else s.dname
  {
    hide Summary, StepPolling, StepWaiting, StepLeaving, Handle, Receive, UserInput, IsConfirm, Header, Body, Grammar,
      Entry, Named;
    if TakesPacket(s, e) {
      EntryNames(s, e);
    }
    match s.mode
    case Polling =>
      PollingEffect(s, e);
      if TakesLine(s, e) {
        LineNames(s, e);
      }
    case Waiting(_, _, _) => WaitingEffect(s, e, max);
    case Leaving(_, _) => LeavingEffect(s, e, max);
    case Exited(_) =>
  }

  // ---------- the datagram of a line ----------

  lemma EncodedEmpty(line: string, name: string, id: Id)
    ensures var o := Grammar(line, name);
      o.ready ==> (UdpEncode(o, id, line) == "" <==> IsHollow(line))
  {
    GrammarHollow(line, name);
    GrammarReady(line, name);
    hide Grammar, IsHollow, Fields, IdBytes;
  }

  lemma SubmitSends(s: Session, o: Outcome, bytes: string)
    requires Sends(s, o)
    ensures var t := Submit(s, o, bytes);
      t.log == s.log + [Sent(o.typ, s.counter, bytes, s.destPort)] && t.mode == Waiting(ToId(s.counter), bytes, 0)
  {
    hide Summary, Record;
    if s.fsm == OpenState {
      if o.typ == Join { } else { }
    }
  }

  lemma LineTaken(s: Session, e: Turn, max: nat)
    requires TakesLine(s, e)
    ensures var u := Emit(Awake(s, e), Read(e.stdin.text));
      Step(s, e, max) == UserInput(u, e.stdin.text)
  {
    PollingEffect(s, e);
    hide UserInput, Summary, Record;
  }

  /** A line that is sent leaves as one datagram under the current number, which is what is then waited for
      and repeated. It is empty exactly for a blank line and for chat that is too long or not printable. */
  lemma LineSent(s: Session, e: Turn, max: nat)
    requires SendsLine(s, e)
    ensures var o, t := Grammar(e.stdin.text, s.dname), Step(s, e, max);
      var bytes := UdpEncode(o, ToId(s.counter), e.stdin.text);
      && t.log == s.log + [Read(e.stdin.text), Sent(o.typ, s.counter, bytes, s.destPort)]
      && t.mode == Waiting(ToId(s.counter), bytes, 0)
      && (bytes == "" <==> IsHollow(e.stdin.text))
  {
    hide Summary, Record, Grammar, UdpEncode, Submit, Step, StepPolling, IsHollow;
    LineTaken(s, e, max);
    var u := Emit(Awake(s, e), Read(e.stdin.text));
    var o := Grammar(e.stdin.text, s.dname);
    var bytes := UdpEncode(o, ToId(s.counter), e.stdin.text);
    EncodedEmpty(e.stdin.text, s.dname, ToId(s.counter));
    SubmitSends(u, o, bytes);
    var c := Sent(o.typ, s.counter, bytes, s.destPort);
    assert s.log + [Read(e.stdin.text)] + [c] == s.log + [Read(e.stdin.text), c];
  }

  // ---------- every datagram of a run ----------

  function Code(typ: MsgType): char {
    match typ
    case Auth => UDP_AUTH
    case Join => UDP_JOIN
    case Msg => UDP_MSG
    case Err => UDP_ERR
    case Bye => UDP_BYE
    case _ => UDP_CONFIRM
  }

  /** A parameter of the grammar: not empty, and of its pattern. */
  predicate Given(p: string, k: Pattern) {
    p != [] && ValidParam(p, k)
  }

  /** The fields of a datagram, which SplitNul reads back from it. */
  predicate Carries(typ: MsgType, fs: seq<string>) {
    match typ
    case Auth => |fs| == 3 && Given(fs[0], IdPattern) && Given(fs[1], DnamePattern) && Given(fs[2], SecretPattern)
    case Join => |fs| == 2 && Given(fs[0], IdPattern) && Given(fs[1], DnamePattern)
    case Msg => |fs| == 2 && Given(fs[0], DnamePattern) && Given(fs[1], TextPattern)
    case Err => |fs| == 2 && ValidName(fs[0]) && fs[1] == ERR_TEXT
    case Bye => fs == []
    case Confirm => fs == []
    case _ => false
  }

  /** The datagram of a message of the given type and number: type, number in network byte order, and the
      fields of its type; or nothing, for the lines that are sent as an empty message. */
  predicate IsWire(typ: MsgType, num: nat, bytes: string) {
    || (bytes == "" && typ in {Msg, UserCmd})
    || (&& |bytes| >= 3 && bytes[..3] == [Code(typ)] + IdBytes(ToId(num))
        && Carries(typ, SplitNul(bytes[3..])) && bytes[3..] == Fields(SplitNul(bytes[3..])))
  }

  predicate AllWire(log: seq<Obs>) {
    forall i | 0 <= i < |log| && log[i].Sent? :: IsWire(log[i].typ, log[i].num, log[i].bytes)
  }

  lemma NulFreeFields(typ: MsgType, fs: seq<string>)
    requires Carries(typ, fs)
    ensures forall i | 0 <= i < |fs| :: NulFree(fs[i])
  {
    ErrTextNulFree();
    hide ValidParam, ERR_TEXT;
    forall i | 0 <= i < |fs|
      ensures NulFree(fs[i])
    {
      match typ
      case Auth => ValidParamBytes(fs[i], if i == 0 then IdPattern else if i == 1 then DnamePattern else SecretPattern);
      case Join => ValidParamBytes(fs[i], if i == 0 then IdPattern else DnamePattern);
      case Msg => ValidParamBytes(fs[i], if i == 0 then DnamePattern else TextPattern);
      case Err =>
        if i == 0 {
          ValidParamBytes(fs[i], DnamePattern);
        }
      case Bye =>
      case Confirm =>
    }
  }

  lemma ErrTextNulFree()
    ensures NulFree(ERR_TEXT)
  {
  }

  /** A datagram laid out from fields of its type is on the wire what it should be. */
  lemma WireOf(typ: MsgType, num: nat, fs: seq<string>)
    requires Carries(typ, fs)
    ensures IsWire(typ, num, [Code(typ)] + IdBytes(ToId(num)) + Fields(fs))
  {
    NulFreeFields(typ, fs);
    SplitFields(fs);
    hide Carries, Fields, SplitNul, IdBytes, Code;
    var head := [Code(typ)] + IdBytes(ToId(num));
    var bytes := head + Fields(fs);
    assert bytes[..3] == head && bytes[3..] == Fields(fs);
  }

  lemma OwnWire(num: nat, name: string)
    requires ValidName(name)
    ensures IsWire(Confirm, num, ConfirmBytes(ToId(num))) && IsWire(Bye, num, ByeBytes(ToId(num)))
    ensures IsWire(Err, num, ErrBytes(ToId(num), name))
  {
    WireOf(Confirm, num, []);
    WireOf(Bye, num, []);
    WireOf(Err, num, [name, ERR_TEXT]);
    hide IsWire;
    assert [UDP_CONFIRM] + IdBytes(ToId(num)) + "" == ConfirmBytes(ToId(num));
    assert [UDP_BYE] + IdBytes(ToId(num)) + "" == ByeBytes(ToId(num));
  }

  /** The same for the message of a line, in a state in which it is sent. */
  lemma LineWire(line: string, name: string, num: nat)
    requires ValidName(name)
    requires var o := Grammar(line, name); o.ready && (o.typ == Auth || name != [])
    ensures var o := Grammar(line, name); IsWire(o.typ, num, UdpEncode(o, ToId(num), line))
  {
    GrammarReady(line, name);
    GrammarParts(line, name);
    GrammarSame(line, name);
    var o := Grammar(line, name);
    hide Grammar, ValidParam, IdBytes, Fields, IsWire;
    if !o.ok || o.typ == UserCmd {
      HollowWire(o.typ, num);
    } else if o.typ == Auth {
      WireOf(Auth, num, o.parts);
      assert o.parts[..3] == o.parts;
    } else if o.typ == Join {
      WireOf(Join, num, [o.parts[0], name]);
    } else {
      WireOf(Msg, num, [name, line]);
    }
  }

  lemma HollowWire(typ: MsgType, num: nat)
    requires typ in {Msg, UserCmd}
    ensures IsWire(typ, num, "")
  {
  }

  lemma GrammarSame(line: string, name: string)
    ensures var o := Grammar(line, name);
      && (o.typ in {Join, Msg, UserCmd} ==> o.name == name)
      && (o.ready && o.typ in {Auth, Join} ==> o.ok)
  {
    hide Fragments, ValidParam;
  }

  /** The first three bytes in numbers: the type codes of the protocol and the number, high byte first. */
  lemma WireCodes(typ: MsgType, num: nat, bytes: string)
    requires IsWire(typ, num, bytes) && bytes != ""
    ensures |bytes| >= 3 && bytes[1] as int * 256 + bytes[2] as int == num % 65536
    ensures match typ
      case Auth => bytes[0] as int == 2
      case Join => bytes[0] as int == 3
      case Msg => bytes[0] as int == 4
      case Err => bytes[0] as int == 254
      case Bye => bytes[0] as int == 255
      case Confirm => bytes[0] as int == 0
      case _ => false
  {
    hide SplitNul, Fields, ValidParam;
    var head := [Code(typ)] + IdBytes(ToId(num));
    assert bytes[..3][0] == bytes[0] && bytes[..3][1] == bytes[1] && bytes[..3][2] == bytes[2];
    assert head[0] == Code(typ);
  }

  /** How the first three bytes of a received datagram are read, in the same numbers. */
  lemma HeaderCodes(p: Packet)
    ensures Header(p).typ ==
      if |p| < 3 then InvalidMsg
      else match p[0] as int
        case 0 => Confirm
        case 1 => ReplyOk
        case 4 => Msg
        case 254 => Err
        case 255 => Bye
        case _ => InvalidMsg
    ensures |p| >= 3 ==>
      var n := p[1] as int * 256 + p[2] as int;
      if Header(p).typ in {Confirm, InvalidMsg} then Header(p).ref == n && Header(p).id == 65535
      else Header(p).id == n
  {
  }

  // ---------- steps ----------

  predicate Wired(s: Session) {
    ValidName(s.dname) && AllWire(s.log)
  }

  lemma EmitWired(s: Session, o: Obs)
    requires Wired(s) && (o.Sent? ==> IsWire(o.typ, o.num, o.bytes))
    ensures Wired(Emit(s, o))
  {
    hide Summary, Record, IsWire, ValidName;
  }

  lemma ExitWired(s: Session, bye: bool, code: int)
    requires Wired(s)
    ensures Wired(Leave(s, bye, code)) && Wired(ErrorExit(s))
  {
    hide Summary, Record, ByeBytes, ErrBytes, IsWire, ValidName, AllWire, Wired;
    WiredName(s);
    OwnWire(s.counter, s.dname);
    OwnWire(s.counter + 1, s.dname);
    var c := Sent(Err, s.counter, ErrBytes(ToId(s.counter), s.dname), s.destPort);
    EmitWired(s, Sent(Bye, s.counter, ByeBytes(ToId(s.counter)), s.destPort));
    EmitWired(s, c);
    var t := Emit(s, c).(counter := s.counter + 1, confirmPending := true);
    SameWired(Emit(s, c), t);
    EmitWired(t, Sent(Bye, t.counter, ByeBytes(ToId(t.counter)), t.destPort));
    SameWired(s, Leave(s, bye, code).(log := s.log));
    SameWired(Emit(s, Sent(Bye, s.counter, ByeBytes(ToId(s.counter)), s.destPort)), Leave(s, true, code));
    SameWired(Emit(t, Sent(Bye, t.counter, ByeBytes(ToId(t.counter)), t.destPort)), ErrorExit(s));
  }

  lemma WiredName(s: Session)
    requires Wired(s)
    ensures ValidName(s.dname)
  {
  }

  lemma SameWired(s: Session, t: Session)
    requires t.log == s.log && t.dname == s.dname
    ensures Wired(t) == Wired(s)
  {
  }

  /** Confirming, possibly showing, and leaving. */
  lemma ConfirmWired(s: Session, lines: seq<Shown>, id: Id, bye: bool, code: int)
    requires Wired(s)
    ensures var t := SendConfirm(Show(s, lines), id);
      Wired(Show(s, lines)) && Wired(t) && Wired(Leave(t, bye, code)) && Wired(ErrorExit(t))
  {
    hide Summary, Record, ConfirmBytes, Leave, ErrorExit, IsWire, Wired;
    WiredName(s);
    OwnWire(id, s.dname);
    var t := Show(s, lines);
    if lines != [] {
      EmitWired(s, Console(lines[0]));
    }
    EmitWired(t, Sent(Confirm, id, ConfirmBytes(id), t.destPort));
    ExitWired(SendConfirm(t, id), bye, code);
  }

  lemma ReplyWired(s: Session, m: Inbound)
    requires Wired(s)
    ensures Wired(TakeReply(s, m)) && Wired(SendConfirm(TakeReply(s, m), m.id))
  {
    hide Summary, Record, ConfirmBytes, IsWire, Wired;
    var t := s.(replyIds := if s.replyIds == [] then [] else s.replyIds[1..], replyPending := false);
    SameWired(s, t);
    EmitWired(t, Printed(m.id, m.ref, m.text));
    ConfirmWired(TakeReply(s, m), [], m.id, false, 0);
  }

  lemma AuthWired(s: Session, m: Inbound)
    requires Wired(s) && s.fsm == AuthState
    ensures Wired(HandleAuth(s, m))
  {
    hide Summary, Record, Leave, ErrorExit, SendConfirm, TakeReply, Wired;
    if m.typ in {ReplyOk, ReplyNok} {
      var u := SwitchPort(s.(seen := s.seen + [m.id]));
      var v := if Answers(s, m) && m.typ == ReplyOk then u.(fsm := OpenState) else u;
      AuthReplySplit(s.(seen := s.seen + [m.id]), m);
      SameWired(s, v);
      ReplyWired(v, m);
    } else if m.typ == Confirm {
      SameWired(s, TakeConfirm(s, m.ref));
    } else {
      ShowNothing(s);
      ConfirmWired(s, [], m.id, true, EXIT_FAILURE);
    }
  }

  lemma OpenWired(s: Session, m: Inbound, p: Packet)
    requires Wired(s) && s.fsm == OpenState
    ensures Wired(HandleOpen(s, m, p))
  {
    hide Summary, Record, Leave, ErrorExit, SendConfirm, TakeReply, Show, BodyShows, Wired;
    ShowNothing(s);
    if m.typ in {ReplyOk, ReplyNok, Msg} {
      var t := s.(seen := s.seen + [m.id]);
      SameWired(s, t);
      ReplyWired(t, m);
      ShowNothing(t);
      ConfirmWired(t, [], m.id, false, 0);
    } else if m.typ == Confirm {
      SameWired(s, TakeConfirm(s, m.ref));
    } else if m.typ == Err {
      ConfirmWired(s, BodyShows(m, p), m.id, true, EXIT_FAILURE);
    } else if m.typ == Bye {
      ConfirmWired(s, [], m.id, false, EXIT_FAILURE);
    } else {
      ConfirmWired(s, [], ToId(s.counter), true, EXIT_FAILURE);
    }
  }

  lemma HandleWired(s: Session, p: Packet, repeated: bool)
    requires Wired(s)
    ensures Wired(Handle(s, Header(p), p, repeated))
  {
    hide Summary, Record, Header, Body, BodyShows, HandleAuth, HandleOpen, Leave, Wired;
    var m := Header(p);
    var t := Show(s, BodyShows(m, p));
    ConfirmWired(s, BodyShows(m, p), 0, false, 0);
    if s.fsm == StartState {
      ExitWired(t, true, EXIT_FAILURE);
    } else if s.fsm == AuthState {
      AuthWired(t, Body(m, p));
    } else {
      OpenWired(t, Body(m, p), p);
    }
  }

  lemma ReceiveWired(s: Session, p: Packet)
    requires Wired(s)
    ensures Wired(Receive(s, p))
  {
    hide Summary, Record, Header, Body, BodyShows, IsRepeat, Handle, Leave, ErrorExit, SendConfirm, Show, Wired;
    var m := Header(p);
    HandleWired(s, p, false);
    ShowNothing(s);
    if m.typ == Err {
      ConfirmWired(s, BodyShows(m, p), m.id, true, EXIT_FAILURE);
    } else if m.typ == InvalidMsg {
      ConfirmWired(s, [], ToId(s.counter), true, EXIT_FAILURE);
    } else {
      ConfirmWired(s, [], m.id, true, EXIT_FAILURE);
    }
  }

  lemma DeliverWired(s: Session, typ: MsgType, num: nat, bytes: string)
    requires Wired(s) && IsWire(typ, num, bytes)
    ensures Wired(Deliver(s, typ, num, bytes))
  {
    hide Summary, Record, IsWire, Wired;
    var id := ToId(num);
    var t := s.(confirmIds := s.confirmIds + [id], confirmPending := true);
    var u := t.(replyIds := s.replyIds + [id], replyPending := true);
    var v := u.(fsm := AuthState);
    SameWired(s, t);
    SameWired(s, u);
    SameWired(s, v);
    var c := Sent(typ, num, bytes, s.destPort);
    EmitWired(t, c);
    EmitWired(u, c);
    EmitWired(v, c);
    SameWired(Emit(t, c), Emit(t, c).(mode := Waiting(id, bytes, 0)));
    SameWired(Emit(u, c), Emit(u, c).(mode := Waiting(id, bytes, 0)));
    SameWired(Emit(v, c), Emit(v, c).(mode := Waiting(id, bytes, 0)));
  }

  lemma InputWired(s: Session, line: string)
    requires Wired(s) && (s.fsm == OpenState ==> s.dname != [])
    ensures Wired(UserInput(s, line))
  {
    hide Summary, Record, Grammar, UdpEncode, IsWire, Wired, Deliver, ValidName;
    var o := Grammar(line, s.dname);
    var bytes := UdpEncode(o, ToId(s.counter), line);
    var t := s.(dname := if o.typ == Auth || o.typ == Rename then o.name else s.dname,
                counter := if o.ready then s.counter + 1 else s.counter);
    WiredName(s);
    GrammarParsed(line, s.dname);
    Renamed(s, t);
    if o.ready {
      if s.fsm == OpenState || o.typ == Auth {
        LineWire(line, s.dname, s.counter);
        DeliverWired(t, o.typ, s.counter, bytes);
      } else {
        Refused(t, o.typ, s.counter, bytes);
      }
    }
  }

  lemma Renamed(s: Session, t: Session)
    requires Wired(s) && t.log == s.log && ValidName(t.dname)
    ensures Wired(t)
  {
  }

  lemma Refused(s: Session, typ: MsgType, num: nat, bytes: string)
    requires s.fsm != OpenState && typ != Auth
    ensures Deliver(s, typ, num, bytes) == s
  {
  }

  lemma PollingWired(s: Session, e: Turn)
    requires Wired(s) && s.mode.Polling? && (s.fsm == OpenState ==> s.dname != [])
    ensures Wired(StepPolling(s, e))
  {
    hide Summary, Record, UserInput, Leave, Receive, Wired;
    var t := Awake(s, e);
    SameWired(s, t);
    ExitWired(t, false, EXIT_FAILURE);
    ExitWired(t, true, EXIT_FAILURE);
    if TakesLine(s, e) {
      EmitWired(t, Read(e.stdin.text));
      InputWired(Emit(t, Read(e.stdin.text)), e.stdin.text);
    } else if TakesPacket(s, e) {
      SameWired(s, t.(serverPort := e.recv.port));
      EmitWired(t.(serverPort := e.recv.port), Got(e.recv.packet, e.recv.port));
      ReceiveWired(Entry(s, e), e.recv.packet);
    }
  }

  lemma WaitingWired(s: Session, e: Turn, max: nat)
    requires Wired(s) && s.mode.Waiting?
    ensures Wired(StepWaiting(s, e, max))
  {
    hide Summary, Record, Leave, Handle, Header, IsRepeat, IsConfirm, Wired;
    match e.recv
    case TimedOut =>
      var c := Resent(s.mode.bytes, s.destPort);
      ExitWired(s, true, EXIT_FAILURE);
      EmitWired(s, c);
      SameWired(Emit(s, c), Emit(s, c).(mode := s.mode.(retries := s.mode.retries + 1)));
    case RecvFailed => SameWired(s, s.(mode := Polling));
    case Datagram(packet, port) =>
      var t := Emit(s, Got(packet, port));
      EmitWired(s, Got(packet, port));
      SameWired(t, t.(confirmPending := false, mode := Polling));
      HandleWired(t, packet, IsRepeat(packet, s.seen));
  }

  lemma LeavingWired(s: Session, e: Turn, max: nat)
    requires Wired(s) && s.mode.Leaving?
    ensures Wired(StepLeaving(s, e, max))
  {
    hide Summary, Record, IsConfirm, Wired;
    SameWired(s, StepLeaving(s, e, max).(log := s.log));
    if e.recv.Datagram? {
      EmitWired(s, Got(e.recv.packet, e.recv.port));
      SameWired(Emit(s, Got(e.recv.packet, e.recv.port)), StepLeaving(s, e, max));
    }
  }

  lemma StepWired(s: Session, e: Turn, max: nat)
    requires Wired(s) && (s.fsm == OpenState ==> s.dname != [])
    ensures Wired(Step(s, e, max))
  {
    hide Wired, StepPolling, StepWaiting, StepLeaving;
    match s.mode
    case Polling => PollingWired(s, e);
    case Waiting(_, _, _) => WaitingWired(s, e, max);
    case Leaving(_, _) => LeavingWired(s, e, max);
    case Exited(_) =>
  }

  lemma InitWired(dest: Port, ready: bool)
    ensures Wired(Init(dest, ready))
  {
  }

  /** Over all runs, every datagram sent has the type and the number of its message in its first three bytes
      and the fields of its type after them, all parameters given and of their patterns; only a MSG or a blank
      line may be an empty datagram. */
  lemma {:induction false} WireOfRun(dest: Port, ready: bool, script: seq<Turn>, max: nat, n: nat)
    requires n <= |script|
    ensures AllWire(Run(Init(dest, ready), script, max, 0, n).log)
    ensures Wired(Run(Init(dest, ready), script, max, 0, n))
  {
    hide Step, IsWire, ValidName;
    if n > 0 {
      WireOfRun(dest, ready, script, max, n - 1);
      NameOfRun(dest, ready, script, max, n - 1);
      StepWired(Run(Init(dest, ready), script, max, 0, n - 1), script[n - 1], max);
    } else {
      InitWired(dest, ready);
    }
  }

  lemma NameOfRun(dest: Port, ready: bool, script: seq<Turn>, max: nat, n: nat)
    requires n <= |script|
    ensures var t := Run(Init(dest, ready), script, max, 0, n); t.fsm == OpenState ==> t.dname != []
  {
    InitInv(dest, ready);
    RunInv(Init(dest, ready), script, max, 0, n);
    hide Run, AtMostOnce, Numbering, Speech, Summary;
  }
}
