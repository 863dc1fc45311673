/** Facts that hold in every reachable state of the UDP client, whatever the network and the user do. */
module UdpInvariants {
  import opened Chat
  import opened UserLine
  import opened UdpWire
  import opened UdpSession

  predicate Increasing(s: seq<int>) {
    forall i, j | 0 <= i < j < |s| :: s[i] < s[j]
  }

  predicate IsSuffix(t: seq<int>, s: seq<int>) {
    |t| <= |s| && t == s[|s| - |t|..]
  }

  predicate Below(s: seq<int>, n: int) {
    forall i | 0 <= i < |s| :: s[i] < n
  }

  predicate Within(s: seq<int>, t: seq<int>) {
    forall i | 0 <= i < |s| :: s[i] in t
  }

  lemma AppendNumber(s: seq<int>, n: int)
    requires Increasing(s) && Below(s, n)
    ensures Increasing(s + [n]) && Below(s + [n], n + 1)
  {
  }

  lemma BelowMore(s: seq<int>, n: int)
    requires Below(s, n)
    ensures Below(s, n + 1)
  {
  }

  lemma AppendNew(s: seq<int>, x: int)
    requires NoDup(s) && x !in s
    ensures NoDup(s + [x])
  {
  }

  lemma AppendWithin(s: seq<int>, t: seq<int>, x: int)
    requires Within(s, t)
    ensures Within(s, t + [x]) && Within(s + [x], t + [x])
    ensures x !in t ==> x !in s
  {
  }

  lemma AppendSuffix(t: seq<int>, s: seq<int>, x: int)
    requires IsSuffix(t, s)
    ensures IsSuffix(t + [x], s + [x])
    ensures t != [] ==> IsSuffix(t[1..], s)
  {
  }

  /** Names, ids and flags that do not depend on the poll gate. */
  predicate Shape(s: Session) {
    && ValidName(s.dname)
    && (s.fsm != StartState ==> s.dname != [])
    && (s.fsm == StartState ==>
          s.replyIds == [] && s.confirmIds == [] && !s.replyPending && s.portOpen && Summary(s.log).users == [])
    && (s.fsm == OpenState ==> !s.portOpen)
    && (s.mode.Waiting? ==> s.fsm != StartState)
  }

  /** At most once: no id is handled twice, and the CONFIRMs sent are the handled ids in order. */
  predicate AtMostOnce(s: Session) {
    var h := Summary(s.log);
    && NoDup(s.seen) && NoDup(h.shown) && NoDup(h.replies)
    && Within(h.replies, s.seen)
    && (Running(s) ==> h.confirms == s.seen && Within(h.shown, s.seen))
  }

  /** Numbers of the client's own messages, and the queue of ids to be confirmed. */
  predicate Numbering(s: Session) {
    var h := Summary(s.log);
    && Increasing(h.numbers)
    && Below(h.numbers, if Running(s) then s.counter else s.counter + 1)
    && IsSuffix(s.confirmIds, h.users)
  }

  /** The messages originated so far, and what is being retransmitted. */
  predicate Speech(s: Session) {
    var h := Summary(s.log);
    && h.faithful
    && (s.mode.Waiting? ==> h.users != [] && h.users[|h.users| - 1] == s.mode.id && h.last == s.mode.bytes)
    && (if Running(s) then
          match s.fsm
          case StartState => h.kinds == []
          case AuthState => h.kinds != [] && OnlyAuths(h.kinds)
          case OpenState => h.kinds != [] && Talk(h.kinds)
        else Language(h.kinds))
  }

  /** Facts about a parsed user line, whatever the line. */
  predicate Parsed(o: Outcome, name: string) {
    && o.typ in {UserCmd, Auth, Join, Rename, Help, Msg}
    && ValidName(o.name)
    && (o.ready ==> o.typ in {UserCmd, Auth, Join, Msg})
    && (o.typ == Auth && o.ready ==> o.name != [])
    && (name != [] ==> o.name != [])
  }

  lemma GrammarParsed(line: string, name: string)
    requires ValidName(name)
    ensures Parsed(Grammar(line, name), name)
  {
    GrammarName(line, name);
    GrammarReady(line, name);
  }

  predicate Inv(s: Session) {
    Shape(s) && AtMostOnce(s) && Numbering(s) && Speech(s)
  }

  lemma InitInv(dest: Port, stdinReady: bool)
    ensures Inv(Init(dest, stdinReady))
  {
  }

  /** Sessions that only have to be able to leave. */
  predicate MayLeave(s: Session) {
    Shape(s) && Running(s) && Numbering(s) && Speech(s) && AtMostOnce(s.(mode := Exited(0)))
  }

  /** Whatever was said so far, the session may end after it. */
  lemma SpeechTalks(s: Session)
    requires Speech(s) && Running(s)
    ensures Talk(Summary(s.log).kinds)
  {
    hide OnlyAuths, Talk, Language, Summary;
    NoTalk();
    if s.fsm == AuthState {
      AuthMore(Summary(s.log).kinds);
    }
  }

  lemma SpeechLeave(s: Session, bye: bool, code: int)
    requires Speech(s) && Running(s)
    ensures Speech(Leave(s, bye, code)) && Speech(ErrorExit(s))
  {
    hide ByeBytes, ErrBytes, OnlyAuths, Talk, Language, Summary, Record;
    var h, c := Summary(s.log), s.counter;
    var o := Sent(Err, c, ErrBytes(ToId(c), s.dname), s.destPort);
    RecordOwn(h, Bye, c, ByeBytes(ToId(c)), s.destPort);
    RecordOwn(h, Err, c, o.bytes, s.destPort);
    RecordOwn(Record(h, o), Bye, c + 1, ByeBytes(ToId(c + 1)), s.destPort);
    SpeechTalks(s);
    TalkEnds(h.kinds);
    if bye { } else { }
  }

  lemma LeaveInv(s: Session, bye: bool, code: int)
    requires MayLeave(s)
    ensures Inv(Leave(s, bye, code))
  {
    hide ByeBytes, Speech, ValidParam, Increasing, Below, NoDup, Within, IsSuffix, OnlyAuths, Talk, Language, Summary,
      Record;
    var h, c := Summary(s.log), s.counter;
    RecordOwn(h, Bye, c, ByeBytes(ToId(c)), s.destPort);
    AppendNumber(h.numbers, c);
    BelowMore(h.numbers, c);
    SpeechLeave(s, bye, code);
    if bye { } else { }
  }

  lemma ErrorExitInv(s: Session)
    requires MayLeave(s)
    ensures Inv(ErrorExit(s))
  {
    hide ByeBytes, ErrBytes, Speech, ValidParam, Increasing, Below, NoDup, Within, IsSuffix, OnlyAuths, Talk,
      Language, Summary, Record;
    var h, c := Summary(s.log), s.counter;
    var o := Sent(Err, c, ErrBytes(ToId(c), s.dname), s.destPort);
    RecordOwn(h, Err, c, o.bytes, s.destPort);
    RecordOwn(Record(h, o), Bye, c + 1, ByeBytes(ToId(c + 1)), s.destPort);
    SpeechLeave(s, true, EXIT_FAILURE);
    AppendNumber(h.numbers, c);
    AppendNumber(h.numbers + [c], c + 1);
  }

  /** A REPLY that is handled: its id is new, it is remembered, and it is confirmed. */
  lemma ReplyInv(s: Session, m: Inbound, t: Session)
    requires Inv(s) && Running(s) && s.fsm != StartState && m.id !in s.seen
    requires t == s.(fsm := t.fsm, destPort := t.destPort, portOpen := t.portOpen, seen := s.seen + [m.id])
    requires t.fsm == s.fsm || t.fsm == OpenState
    requires t.fsm == OpenState ==> !t.portOpen
    ensures Inv(SendConfirm(TakeReply(t, m), m.id))
  {
    hide ConfirmBytes, ValidParam, Increasing, Below, NoDup, Within, IsSuffix, OnlyAuths, Talk, Language, Summary,
      Record;
    var h := Summary(s.log);
    AppendNew(s.seen, m.id);
    AppendWithin(h.replies, s.seen, m.id);
    AppendNew(h.replies, m.id);
    AppendWithin(h.shown, s.seen, m.id);
    RecordPrinted(h, m.id, m.ref, m.text);
    RecordConfirm(Summary(TakeReply(t, m).log), m.id, ConfirmBytes(m.id), t.destPort);
    if s.fsm == AuthState {
      AuthMore(h.kinds);
    }
    if Answers(t, m) { } else { }
  }

  /** A MSG received in the open state: shown, remembered, confirmed. */
  lemma ChatInv(s: Session, id: Id, line: Shown)
    requires Inv(s) && Running(s) && s.fsm == OpenState && id !in s.seen
    requires line.typ == Msg && line.id == id
    ensures var t := Emit(s, Console(line)); Inv(SendConfirm(t.(seen := t.seen + [id]), id))
  {
    hide ConfirmBytes, ValidParam, Increasing, Below, NoDup, Within, IsSuffix, OnlyAuths, Talk, Language, Summary,
      Record;
    var h := Summary(s.log);
    AppendNew(s.seen, id);
    AppendWithin(h.replies, s.seen, id);
    AppendWithin(h.shown, s.seen, id);
    AppendNew(h.shown, id);
    RecordConsole(h, line);
    RecordConfirm(Record(h, Console(line)), id, ConfirmBytes(id), s.destPort);
  }

  lemma ShowMayLeave(s: Session, line: Shown)
    requires Inv(s) && Running(s) && (line.typ == Msg ==> line.id !in s.seen)
    ensures MayLeave(Emit(s, Console(line)))
  {
    hide ValidParam, Increasing, Below, NoDup, Within, IsSuffix, OnlyAuths, Talk, Language, Summary, Record;
    var h := Summary(s.log);
    RecordConsole(h, line);
    if line.typ == Msg {
      AppendWithin(h.shown, s.seen, line.id);
      AppendNew(h.shown, line.id);
    }
  }

  lemma ConfirmMayLeave(s: Session, id: Id)
    requires MayLeave(s)
    ensures MayLeave(SendConfirm(s, id))
  {
    hide ConfirmBytes, ValidParam, Increasing, Below, NoDup, Within, IsSuffix, OnlyAuths, Talk, Language, Summary,
      Record;
    RecordConfirm(Summary(s.log), id, ConfirmBytes(id), s.destPort);
  }

  lemma TakeConfirmInv(s: Session, id: Id)
    requires Inv(s) && s.fsm != StartState
    ensures Inv(TakeConfirm(s, id))
  {
    hide ValidParam, Increasing, Below, NoDup, Within, IsSuffix, OnlyAuths, Talk, Language, Summary, Record;
    AppendSuffix(s.confirmIds, Summary(s.log).users, 0);
  }

  /** What decoding can make of a packet. */
  lemma BodyKinds(p: Packet)
    ensures var m, b := Header(p), Body(Header(p), p);
      && b.id == m.id
      && m.typ in {Confirm, ReplyOk, Msg, Err, Bye, InvalidMsg}
      && (m.typ in {Confirm, Err, Bye, InvalidMsg} ==> b == m)
      && (m.typ == ReplyOk ==> b.typ in {ReplyOk, ReplyNok, InvalidMsg})
      && (m.typ == Msg ==> b.typ == if |p| >= 7 then Msg else Err)
      && BodyShows(m, p) == (if m.typ in {Msg, Err} && |p| >= 7 then [Shown(m.typ, m.id, NameOf(p), TextOf(p))] else [])
  {
  }

  lemma ExitInv(s: Session, lines: seq<Shown>, id: Id, bye: bool, code: int)
    requires MayLeave(s) && (lines != [] ==> lines[0].typ == Err)
    ensures Inv(Leave(SendConfirm(Show(s, lines), id), bye, code))
    ensures Inv(ErrorExit(SendConfirm(Show(s, lines), id)))
  {
    var t := Show(s, lines);
    assert MayLeave(t) by {
      hide ValidParam, Increasing, Below, NoDup, Within, IsSuffix, OnlyAuths, Talk, Language;
    }
    hide Leave, ErrorExit, SendConfirm, Show;
    ConfirmMayLeave(t, id);
    LeaveInv(SendConfirm(t, id), bye, code);
    ErrorExitInv(SendConfirm(t, id));
  }

  /** The FSM state and the port may as well change before the reply is taken. */
  lemma AuthReplySplit(s: Session, m: Inbound)
    ensures var t := SwitchPort(s);
      TakeAuthReply(s, m) == TakeReply(if Answers(s, m) && m.typ == ReplyOk then t.(fsm := OpenState) else t, m)
  {
    hide Summary, Record;
  }

  lemma AuthInv(s: Session, m: Inbound)
    requires MayLeave(s) && s.fsm == AuthState
    requires m.typ in {ReplyOk, ReplyNok} ==> m.id !in s.seen
    requires m.typ !in {Err, Msg} ==> Inv(s)
    ensures Inv(HandleAuth(s, m))
  {
    AuthReplySplit(s.(seen := s.seen + [m.id]), m);
    hide Leave, ErrorExit, SendConfirm, TakeReply, ValidParam, Increasing, Below, NoDup, Within, IsSuffix, OnlyAuths,
      Talk, Language, Summary, Record;
    if m.typ in {ReplyOk, ReplyNok} {
      var u := SwitchPort(s.(seen := s.seen + [m.id]));
      var v := if Answers(s, m) && m.typ == ReplyOk then u.(fsm := OpenState) else u;
      ReplyInv(s, m, v);
    } else if m.typ == Confirm {
      TakeConfirmInv(s, m.ref);
    } else if m.typ in {Err, Msg} {
      ExitInv(s, [], m.id, true, EXIT_FAILURE);
    }
  }

  lemma OpenInv(s: Session, m: Inbound, p: Packet)
    requires MayLeave(s) && s.fsm == OpenState && m.typ != Msg
    requires m.typ in {ReplyOk, ReplyNok} ==> m.id !in s.seen
    requires m.typ in {ReplyOk, ReplyNok, Confirm} ==> Inv(s)
    ensures Inv(HandleOpen(s, m, p))
  {
    hide Leave, ErrorExit, SendConfirm, TakeReply, ValidParam, Increasing, Below, NoDup, Within, IsSuffix, OnlyAuths,
      Talk, Language, Summary, Record;
    if m.typ in {ReplyOk, ReplyNok} {
      ReplyInv(s, m, s.(seen := s.seen + [m.id]));
    } else if m.typ == Confirm {
      TakeConfirmInv(s, m.ref);
    } else if m.typ == Err {
      ExitInv(s, BodyShows(m, p), m.id, true, EXIT_FAILURE);
    } else if m.typ == Bye {
      ExitInv(s, [], m.id, false, EXIT_FAILURE);
    } else {
      ExitInv(s, [], ToId(s.counter), true, EXIT_FAILURE);
    }
  }

  lemma OpenOnChat(s: Session, m: Inbound, p: Packet)
    requires m.typ == Msg
    ensures HandleOpen(s, m, p) == SendConfirm(s.(seen := s.seen + [m.id]), m.id)
  {
  }

  lemma HandleInv(s: Session, p: Packet)
    requires Inv(s) && Running(s)
    ensures Inv(Handle(s, Header(p), p, IsRepeat(p, s.seen)))
  {
    BodyKinds(p);
    var m := Header(p);
    var b := Body(m, p);
    hide Header, Body, BodyShows, HandleAuth, HandleOpen, Leave, Summary, Record, ValidParam,
      Increasing, Below, NoDup, Within, IsSuffix, OnlyAuths, Talk, Language, SendConfirm;
    if !IsRepeat(p, s.seen) {
      var t := Show(s, BodyShows(m, p));
      if m.typ in {Msg, Err} && |p| >= 7 {
        ShowMayLeave(s, BodyShows(m, p)[0]);
      }
      if s.fsm == StartState {
        LeaveInv(t, true, EXIT_FAILURE);
      } else if s.fsm == AuthState {
        AuthInv(t, b);
      } else if b.typ == Msg {
        ChatInv(s, m.id, BodyShows(m, p)[0]);
        OpenOnChat(t, b, p);
      } else {
        OpenInv(t, b, p);
      }
    }
  }

  lemma ReceiveInv(s: Session, p: Packet)
    requires Inv(s) && Running(s)
    ensures Inv(Receive(s, p))
  {
    BodyKinds(p);
    HandleInv(s, p);
    hide Header, Body, BodyShows, Leave, ErrorExit, Summary, Record, ValidParam, Handle,
      Increasing, Below, NoDup, Within, IsSuffix, OnlyAuths, Talk, Language, SendConfirm;
    var m := Header(p);
    if !IsRepeat(p, s.seen) {
      if m.typ == Err {
        ExitInv(s, BodyShows(m, p), m.id, true, EXIT_FAILURE);
      } else if m.typ == InvalidMsg {
        ExitInv(s, [], ToId(s.counter), true, EXIT_FAILURE);
      } else if s.fsm == StartState || (s.fsm == AuthState && (m.typ == Bye || m.typ == Msg)) {
        ExitInv(s, [], m.id, true, EXIT_FAILURE);
      }
    }
  }

  lemma TransmitNumbering(s: Session, typ: MsgType, num: nat, bytes: string)
    requires IsUserType(typ) && s.mode.Polling? && s.counter == num + 1 && Numbering(s.(counter := num))
    ensures Numbering(Transmit(s, typ, num, bytes))
  {
    hide ValidParam, Increasing, Below, NoDup, Within, IsSuffix, OnlyAuths, Talk, Language, Summary, Record;
    var h := Summary(s.log);
    RecordUser(h, typ, num, bytes, s.destPort);
    AppendNumber(h.numbers, num);
    AppendSuffix(s.confirmIds, h.users, ToId(num));
  }

  lemma TransmitSpeech(s: Session, typ: MsgType, num: nat, bytes: string)
    requires IsUserType(typ) && s.fsm != StartState
    requires var h := Summary(s.log);
      && h.faithful
      && (if typ == Auth then OnlyAuths(h.kinds) && s.fsm == AuthState
          else Talk(h.kinds) && h.kinds != [] && s.fsm == OpenState)
    ensures Speech(Transmit(s, typ, num, bytes))
  {
    hide ValidParam, Increasing, Below, NoDup, Within, IsSuffix, OnlyAuths, Talk, Language, Summary, Record;
    var h := Summary(s.log);
    RecordUser(h, typ, num, bytes, s.destPort);
    if typ == Auth {
      AuthMore(h.kinds);
    } else {
      TalkMore(h.kinds, typ);
    }
  }

  lemma TransmitInv(s: Session, typ: MsgType, num: nat, bytes: string)
    requires IsUserType(typ) && s.mode.Polling? && s.fsm != StartState && s.counter == num + 1
    requires Shape(s.(fsm := OpenState, portOpen := false)) && (s.fsm == OpenState ==> !s.portOpen)
    requires AtMostOnce(s) && Numbering(s.(counter := num))
    requires var h := Summary(s.log);
      && h.faithful
      && (if typ == Auth then OnlyAuths(h.kinds) && s.fsm == AuthState
          else Talk(h.kinds) && h.kinds != [] && s.fsm == OpenState)
    ensures Inv(Transmit(s, typ, num, bytes))
  {
    hide Speech, Numbering, ValidParam, Increasing, Below, NoDup, Within, IsSuffix, OnlyAuths, Talk, Language,
      Summary, Record;
    RecordUser(Summary(s.log), typ, num, bytes, s.destPort);
    TransmitNumbering(s, typ, num, bytes);
    TransmitSpeech(s, typ, num, bytes);
  }

  /** Renaming and skipping a number keep the invariant. */
  lemma IdleInv(s: Session, t: Session)
    requires Inv(s) && Running(s)
    requires t.dname == s.dname || (ValidName(t.dname) && (s.dname != [] ==> t.dname != []))
    requires t == s.(dname := t.dname, counter := t.counter) && s.counter <= t.counter <= s.counter + 1
    ensures Inv(t)
  {
    hide ValidParam, Increasing, Below, NoDup, Within, IsSuffix, OnlyAuths, Talk, Language, Summary, Record;
    BelowMore(Summary(s.log).numbers, s.counter);
  }

  /** A line that is sent in the state at hand. */
  lemma SentInv(s: Session, o: Outcome, bytes: string)
    requires Inv(s) && s.mode.Polling? && Parsed(o, s.dname)
    requires o.ready && (if s.fsm == OpenState then o.typ != Auth else o.typ == Auth)
    ensures Inv(Submit(s, o, bytes))
  {
    hide ValidParam, Increasing, Below, NoDup, Within, IsSuffix, OnlyAuths, Talk, Language, Transmit, Summary, Record;
    var num := s.counter;
    var t := s.(dname := if o.typ == Auth then o.name else s.dname, counter := num + 1);
    NoTalk();
    if o.typ == Join {
      TransmitInv(t.(replyIds := t.replyIds + [ToId(num)], replyPending := true), Join, num, bytes);
    } else if o.typ == Auth {
      TransmitInv(t.(fsm := AuthState, replyIds := t.replyIds + [ToId(num)], replyPending := true), Auth, num, bytes);
    } else {
      TransmitInv(t, o.typ, num, bytes);
    }
  }

  lemma SubmitInv(s: Session, o: Outcome, bytes: string)
    requires Inv(s) && s.mode.Polling? && Parsed(o, s.dname)
    ensures Inv(Submit(s, o, bytes))
  {
    hide Inv, Transmit, Summary, Record;
    var num := s.counter;
    var t := s.(dname := if o.typ == Auth || o.typ == Rename then o.name else s.dname,
                counter := if o.ready then num + 1 else num);
    IdleInv(s, t);
    if o.ready && (if s.fsm == OpenState then o.typ != Auth else o.typ == Auth) {
      SentInv(s, o, bytes);
    }
  }

  /** Entries of the log that only record an input or a retransmission. */
  lemma NoteInv(s: Session, o: Obs)
    requires Inv(s) && (o.Read? || o.Got? || o.Resent?)
    requires o.Resent? ==> s.mode.Waiting? && o.again == s.mode.bytes
    ensures Inv(Emit(s, o))
  {
    hide ValidParam, Increasing, Below, NoDup, Within, IsSuffix, OnlyAuths, Talk, Language;
  }

  lemma PollingInv(s: Session, e: Turn)
    requires Inv(s) && s.mode.Polling?
    ensures Inv(StepPolling(s, e))
  {
    hide Leave, Receive, ValidParam, Increasing, Below, NoDup, Within, IsSuffix, OnlyAuths, Talk, Language, Summary,
      Submit, UdpEncode, Grammar;
    if e.poll.PollFailed? {
      LeaveInv(s, false, EXIT_FAILURE);
    } else {
      var t := if Gated(s) then s else s.(stdinReady := e.poll.stdin);
      if e.poll.socket {
        if e.recv.RecvFailed? {
          LeaveInv(t, false, EXIT_FAILURE);
        } else if e.recv.Datagram? {
          var u := t.(serverPort := e.recv.port);
          NoteInv(u, Got(e.recv.packet, e.recv.port));
          ReceiveInv(Emit(u, Got(e.recv.packet, e.recv.port)), e.recv.packet);
        }
      } else if t.stdinReady {
        if e.stdin.Eof? {
          LeaveInv(t, true, EXIT_FAILURE);
        } else if e.stdin.text != "" {
          var u := Emit(t, Read(e.stdin.text));
          NoteInv(t, Read(e.stdin.text));
          GrammarParsed(e.stdin.text, u.dname);
          var o := Grammar(e.stdin.text, u.dname);
          SubmitInv(u, o, UdpEncode(o, ToId(u.counter), e.stdin.text));
        }
      }
    }
  }

  lemma WaitingInv(s: Session, e: Turn, max: nat)
    requires Inv(s) && s.mode.Waiting?
    ensures Inv(StepWaiting(s, e, max))
  {
    hide Leave, Handle, ValidParam, Increasing, Below, NoDup, Within, IsSuffix, OnlyAuths, Talk, Language, Summary,
      Header, IsConfirm;
    match e.recv
    case TimedOut =>
      LeaveInv(s, true, EXIT_FAILURE);
      NoteInv(s, Resent(s.mode.bytes, s.destPort));
    case RecvFailed =>
    case Datagram(packet, port) =>
      NoteInv(s, Got(packet, port));
      HandleInv(Emit(s, Got(packet, port)), packet);
  }

  lemma LeavingInv(s: Session, e: Turn, max: nat)
    requires Inv(s) && s.mode.Leaving?
    ensures Inv(StepLeaving(s, e, max))
  {
    hide ValidParam, Increasing, Below, NoDup, Within, IsSuffix, OnlyAuths, Talk, Language, Summary, IsConfirm;
    if e.recv.Datagram? {
      NoteInv(s, Got(e.recv.packet, e.recv.port));
    }
  }

  lemma StepInv(s: Session, e: Turn, max: nat)
    requires Inv(s)
    ensures Inv(Step(s, e, max))
  {
    hide StepPolling, StepWaiting, StepLeaving, Inv;
    match s.mode
    case Polling => PollingInv(s, e);
    case Waiting(_, _, _) => WaitingInv(s, e, max);
    case Leaving(_, _) => LeavingInv(s, e, max);
    case Exited(_) =>
  }

  /** Every reachable state satisfies the invariant. */
  lemma {:induction false} RunInv(s: Session, script: seq<Turn>, max: nat, i: nat, j: nat)
    requires i <= j <= |script| && Inv(s)
    ensures Inv(Run(s, script, max, i, j))
    decreases j - i
  {
    if i < j {
      RunInv(s, script, max, i, j - 1);
      StepInv(Run(s, script, max, i, j - 1), script[j - 1], max);
    }
  }
}
