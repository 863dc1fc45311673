/** What lines of the user do to the display name and what is sent for them, and exactly which runs of the
    TCP client send a line that is not of the grammar. */
module TcpLines {
  import opened Chat
  import opened UserLine
  import opened TcpWire
  import opened TcpSession
  import opened TcpTheorems

  // ---------- lines of the user ----------

  /** The session after poll, and the one in which standard input is looked at. */
  function Polled(s: Session, e: Turn): Session {
    if s.replyPending || e.poll.PollFailed? then s else s.(stdinReady := e.poll.stdin)
  }

  function Reader(s: Session, e: Turn): Session {
    if e.poll.Revents? && e.poll.socket then Receive(Polled(s, e)).s else Polled(s, e)
  }

  predicate TakesLine(s: Session, e: Turn) {
    && s.mode.Chatting? && e.poll.Revents? && (e.poll.socket ==> Receive(Polled(s, e)).goesOn)
    && Reader(s, e).stdinReady && e.stdin.Line? && e.stdin.text != ""
  }

  lemma StepReads(s: Session, e: Turn)
    ensures var u := Reader(s, e);
      if TakesLine(s, e) then Step(s, e) == UserInput(Emit(u, Read(e.stdin.text)), e.stdin.text)
      else Step(s, e).dname == (if s.mode.Chatting? && e.poll.Revents? then u.dname else s.dname)
  {
    hide Summary, Record, Receive, UserInput;
  }

  lemma ExitNames(s: Session, text: string, bye: bool, code: int)
    ensures Leave(s, bye, code).dname == s.dname && ErrorExit(s, text).dname == s.dname
  {
    hide Summary, Record, TextLine;
  }

  lemma DispatchNames(s: Session, typ: MsgType, text: string)
    ensures Dispatch(s, typ, text).s.dname == s.dname
  {
    hide Summary, Record, Leave, ErrorExit;
    ExitNames(s, ERR_TEXT, true, EXIT_FAILURE);
    ExitNames(s, OPEN_ERR_TEXT, false, EXIT_SUCCESS);
    if s.fsm == StartState {
    } else if s.fsm == AuthState {
    }
  }

  lemma ReceiveNames(s: Session)
    ensures Receive(s).s.dname == s.dname
  {
    hide Summary, Record, TcpDecode, NextFrame, Dispatch, Leave;
    match NextFrame(s.stream)
    case None => ExitNames(s.(stream := ""), "", false, EXIT_FAILURE);
    case Some(n) =>
      var t := Emit(s.(stream := s.stream[n..]), Got(s.stream[..n]));
      match TcpDecode(s.stream[..n]) {
      case OutOfRange =>
      case Decoded(typ, text, shown) => DispatchNames(Show(t, shown), typ, text);
      }
  }

  lemma SubmitNames(s: Session, o: Outcome, bytes: string)
    ensures Submit(s, o, bytes).dname == if o.typ == Auth || o.typ == Rename then o.name else s.dname
  {
    hide Summary, Record;
  }

  /** The display name changes exactly when a line with a good /auth or /rename is taken, in whatever state the
      session is and whether or not the request is sent. */
  lemma NameTurn(s: Session, e: Turn)
    ensures Step(s, e).dname == if TakesLine(s, e) then Named(e.stdin.text, s.dname) else s.dname
  {
    hide Summary, Record, Receive, Step, Grammar, TcpEncode, Submit, Named;
    StepReads(s, e);
    ReceiveNames(Polled(s, e));
    if TakesLine(s, e) {
      var u := Emit(Reader(s, e), Read(e.stdin.text));
      var o := Grammar(e.stdin.text, u.dname);
      SubmitNames(u, o, TcpEncode(o, e.stdin.text));
      GrammarNamed(e.stdin.text, s.dname);
    }
  }

  /** The line will be sent: /auth before the open state, anything but /auth in it. */
  predicate Sends(s: Session, o: Outcome) {
    o.ready && if s.fsm == OpenState then o.typ != Auth else o.typ == Auth
  }

  lemma EncodedEmpty(line: string, name: string)
    ensures var o := Grammar(line, name);
      o.ready ==> (TcpEncode(o, line) == "" <==> IsHollow(line))
  {
    GrammarHollow(line, name);
    GrammarReady(line, name);
    LinesNonEmpty();
    hide Grammar, IsHollow, AuthLine, JoinLine;
  }

  lemma SubmitSends(s: Session, o: Outcome, bytes: string)
    requires Sends(s, o)
    ensures var t := Submit(s, o, bytes); t.log == s.log + [Sent(o.typ, bytes, t.fsm)]
  {
    hide Summary, Record;
    if s.fsm == OpenState {
      if o.typ == Join { } else { }
    }
  }

  /** A line that is sent leaves as one text. It is empty exactly for a blank line and for chat that is too
      long or not printable. */
  lemma LineSent(s: Session, e: Turn)
    requires TakesLine(s, e) && Sends(Reader(s, e), Grammar(e.stdin.text, Reader(s, e).dname))
    ensures var u, t := Reader(s, e), Step(s, e);
      var o := Grammar(e.stdin.text, u.dname);
      var bytes := TcpEncode(o, e.stdin.text);
      && t.log == u.log + [Read(e.stdin.text), Sent(o.typ, bytes, t.fsm)]
      && (bytes == "" <==> IsHollow(e.stdin.text))
  {
    StepReads(s, e);
    hide Summary, Record, Receive, Step, Grammar, TcpEncode, Submit, IsHollow, Reader;
    var u := Reader(s, e);
    var o := Grammar(e.stdin.text, u.dname);
    var bytes := TcpEncode(o, e.stdin.text);
    EncodedEmpty(e.stdin.text, u.dname);
    SubmitSends(Emit(u, Read(e.stdin.text)), o, bytes);
    var c := Sent(o.typ, bytes, Step(s, e).fsm);
    assert u.log + [Read(e.stdin.text)] + [c] == u.log + [Read(e.stdin.text), c];
  }

  // ---------- lines that are not of the grammar ----------

  /** An ERR without a name is not a line of the grammar: a name would have to begin with the space. */
  lemma NamelessIsForeign(text: string)
    ensures !WellFormed(Err, TextLine("ERR", "", text))
  {
    var b := TextLine("ERR", "", text);
    assert b[9] == ' ';
    forall name, content | name != [] && ValidParam(name, DnamePattern)
      ensures b != TextLine("ERR", name, content)
    {
      assert TextLine("ERR", name, content)[9] == name[0];
    }
  }

  /** Every non-empty line of the log is a line of the grammar. */
  ghost predicate AllWellFormed(log: seq<Obs>) {
    forall i | 0 <= i < |log| && log[i].Sent? && log[i].bytes != "" :: WellFormed(log[i].typ, log[i].bytes)
  }

  ghost predicate Strict(s: Session) {
    Summary(s.log).strict
  }

  lemma {:induction false} StrictDecides(log: seq<Obs>)
    ensures Summary(log).strict <==> AllWellFormed(log)
  {
    hide WellFormed;
    if log != [] {
      var prev := log[..|log| - 1];
      StrictDecides(prev);
      assert forall i | 0 <= i < |prev| :: prev[i] == log[i];
    }
  }

  lemma RecordStrict(h: History, typ: MsgType, b: string, from: FsmState)
    ensures Record(h, Sent(typ, b, from)).strict == (h.strict && (b == "" || WellFormed(typ, b)))
  {
    hide WellFormed, NamelessErr;
  }

  lemma QuietStrict(s: Session, o: Obs)
    requires !o.Sent?
    ensures Strict(Emit(s, o)) == Strict(s)
  {
    hide Summary, WellFormed, NamelessErr;
  }

  lemma LeaveStrict(s: Session, bye: bool, code: int)
    ensures Strict(Leave(s, bye, code)) == Strict(s)
  {
    hide Summary, Record, WellFormed;
    ByeWellFormed();
    RecordStrict(Summary(s.log), Bye, BYE_LINE, s.fsm);
  }

  lemma ErrStrict(s: Session, text: string)
    requires ValidName(s.dname) && (text == ERR_TEXT || text == OPEN_ERR_TEXT)
    ensures Strict(ErrorExit(s, text)) == (Strict(s) && s.dname != "")
  {
    hide Summary, Record, WellFormed, Leave, TextLine, ValidParam;
    var line := TextLine("ERR", s.dname, text);
    OwnTexts();
    if s.dname == "" {
      NamelessIsForeign(text);
    } else {
      TextWellFormed(Err, s.dname, text);
    }
    NonEmpty(s.dname, text);
    RecordStrict(Summary(s.log), Err, line, s.fsm);
    LeaveStrict(Send(s, Err, line), true, EXIT_FAILURE);
  }

  lemma NonEmpty(name: string, text: string)
    ensures TextLine("ERR", name, text) != ""
  {
  }

  lemma DispatchStrict(s: Session, typ: MsgType, text: string)
    requires Inv(s)
    ensures Strict(Dispatch(s, typ, text).s)
         == (Strict(s) && !(s.fsm == StartState && s.dname == "" && typ != ToBeDecided))
  {
    NamedState(s);
    hide Summary, Record, Inv, Leave, ErrorExit, Strict, HandleAuth, HandleOpen, ValidName;
    ErrStrict(s, ERR_TEXT);
    if s.fsm == AuthState {
      AuthStrict(s, typ, text);
    } else if s.fsm == OpenState {
      OpenStrict(s, typ, text);
    }
  }

  lemma ReplyStrict(s: Session, text: string)
    ensures Strict(TakeReply(s, text)) == Strict(s) && Strict(TakeReply(s, text).(fsm := OpenState)) == Strict(s)
  {
    hide Summary, Record, Strict;
    QuietStrict(s, Printed(text));
    SameStrict(Emit(s, Printed(text)));
    SameStrict(s);
  }

  lemma AuthStrict(s: Session, typ: MsgType, text: string)
    requires ValidName(s.dname) && s.dname != ""
    ensures Strict(HandleAuth(s, typ, text).s) == Strict(s)
  {
    hide Summary, Record, Leave, ErrorExit, Strict, TakeReply, ValidName;
    ErrStrict(s, ERR_TEXT);
    LeaveStrict(s, true, EXIT_FAILURE);
    ReplyStrict(s, text);
  }

  lemma OpenStrict(s: Session, typ: MsgType, text: string)
    requires ValidName(s.dname) && s.dname != ""
    ensures Strict(HandleOpen(s, typ, text).s) == Strict(s)
  {
    hide Summary, Record, Leave, ErrorExit, Strict, TakeReply, ValidName;
    ErrStrict(s, OPEN_ERR_TEXT);
    LeaveStrict(s, true, EXIT_FAILURE);
    LeaveStrict(s, false, EXIT_SUCCESS);
    ReplyStrict(s, text);
  }

  lemma NamedState(s: Session)
    requires Inv(s)
    ensures ValidName(s.dname) && (s.fsm != StartState ==> s.dname != [])
  {
    hide Summary;
  }

  lemma SameStrict(s: Session)
    ensures forall t: Session :: t.log == s.log ==> Strict(t) == Strict(s)
  {
  }

  lemma ReceiveStrict(s: Session)
    requires Inv(s) && s.mode.Chatting?
    ensures Strict(Receive(s).s)
         == (Strict(s) && !(s.fsm == StartState && s.dname == "" && Incoming(s) != ToBeDecided))
  {
    hide Summary, Record, Inv, Leave, Dispatch, TcpDecode, NextFrame, Strict;
    SameStrict(s);
    match NextFrame(s.stream)
    case None => LeaveStrict(s.(stream := ""), false, EXIT_FAILURE);
    case Some(n) =>
      var f := s.stream[..n];
      var u := s.(stream := s.stream[n..]);
      var t := Emit(u, Got(f));
      QuietStrict(u, Got(f));
      StreamInv(s, s.stream[n..]);
      QuietInv(u, Got(f));
      SameStrict(t);
      match TcpDecode(f) {
      case OutOfRange =>
      case Decoded(typ, text, shown) =>
        if shown != [] {
          QuietStrict(t, Console(shown[0]));
          QuietInv(t, Console(shown[0]));
        }
        DispatchStrict(Show(t, shown), typ, text);
      }
  }

  lemma StreamInv(s: Session, stream: string)
    requires Inv(s)
    ensures Inv(s.(stream := stream))
  {
    hide Summary;
  }

  lemma SubmitStrict(s: Session, o: Outcome, b: string)
    requires Encoded(o, b, s.dname) && (s.fsm != StartState ==> s.dname != [])
    ensures Strict(Submit(s, o, b)) == Strict(s)
  {
    hide Summary, Record, WellFormed, ValidParam;
    RecordStrict(Summary(s.log), o.typ, b, OpenState);
    RecordStrict(Summary(s.log), o.typ, b, AuthState);
  }

  lemma StdinStrict(s: Session, stdin: Stdin)
    requires Inv(s)
    ensures Strict(ReadStdin(s, stdin)) == Strict(s)
  {
    NamedState(s);
    hide Summary, Record, Inv, Leave, Submit, Grammar, TcpEncode, Encoded, Strict;
    LeaveStrict(s, true, EXIT_FAILURE);
    if stdin.Line? {
      QuietStrict(s, Read(stdin.text));
      var t := Emit(s, Read(stdin.text));
      GrammarEncoded(stdin.text, t.dname);
      var o := Grammar(stdin.text, t.dname);
      SubmitStrict(t, o, TcpEncode(o, stdin.text));
    }
  }

  /** A message of the server arrives before the user has chosen a display name. */
  predicate TooEarly(s: Session, e: Turn) {
    && s.mode.Chatting? && s.fsm == StartState && s.dname == ""
    && e.poll.Revents? && e.poll.socket && Incoming(s) != ToBeDecided
  }

  lemma StepStrict(s: Session, e: Turn)
    requires Inv(s)
    ensures Strict(Step(s, e)) == (Strict(s) && !TooEarly(s, e))
  {
    hide Summary, Inv, Leave, Receive, ReadStdin, Strict, Incoming;
    SameStrict(s);
    if s.mode.Chatting? && e.poll.Revents? {
      var t := Polled(s, e);
      PollKeeps(s, t.stdinReady);
      ReceiveInv(t);
      ReceiveStrict(t);
      StdinStrict(if e.poll.socket then Receive(t).s else t, e.stdin);
    } else {
      LeaveStrict(s, false, EXIT_FAILURE);
    }
  }

  /** No message arrives too early before turn n. */
  predicate NoneTooEarly(s: Session, script: seq<Turn>, n: nat)
    requires n <= |script|
  {
    forall k | 0 <= k < n :: !TooEarly(Run(s, script, 0, k), script[k])
  }

  /** Over all runs, every non-empty line sent is a line of the grammar, if and only if no message of the server
      arrives in the start state before the user has chosen a display name. */
  lemma {:induction false} GrammarExact(stream: string, ready: bool, script: seq<Turn>, n: nat)
    requires n <= |script|
    ensures var s := Init(stream, ready); AllWellFormed(Run(s, script, 0, n).log) <==> NoneTooEarly(s, script, n)
  {
    hide Step, Inv, TooEarly, WellFormed;
    var s := Init(stream, ready);
    StrictDecides(Run(s, script, 0, n).log);
    if n > 0 {
      var t := Run(s, script, 0, n - 1);
      GrammarExact(stream, ready, script, n - 1);
      StrictDecides(t.log);
      TraceLanguage(stream, ready, script, n - 1);
      StepStrict(t, script[n - 1]);
      hide AllWellFormed;
      assert NoneTooEarly(s, script, n) <==> NoneTooEarly(s, script, n - 1) && !TooEarly(t, script[n - 1]);
    }
  }
}
