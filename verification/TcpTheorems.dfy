/** Whole-run properties of the TCP client, for every byte stream and every script of user behaviour. */
module TcpTheorems {
  import opened Chat
  import opened UserLine
  import opened TcpWire
  import opened TcpSession

  // ---------- the lines the client sends ----------

  predicate NoBreak(s: string) {
    forall i | 0 <= i < |s| :: s[i] != '\r' && s[i] != '\n'
  }

  lemma NoBreakJoin(a: string, b: string)
    requires NoBreak(a) && NoBreak(b)
    ensures NoBreak(a + b)
  {
  }

  lemma ParamNoBreak(p: string, k: Pattern)
    requires ValidParam(p, k)
    ensures NoBreak(p)
  {
  }

  lemma FrameOf(body: string)
    requires NoBreak(body) && |body| + 2 <= BUFFER_SIZE
    ensures IsFrame(body + CRLF)
  {
    var b := body + CRLF;
    assert forall i | 0 <= i < |body| :: b[i] == body[i];
    forall m | 0 <= m < |b|
      ensures !EndsCrlf(b[..m])
    {
      if m >= 2 {
        assert b[..m][m - 1] == b[m - 1];
        assert b[..m][m - 2] == b[m - 2];
      }
    }
  }

  lemma OneLineOf(body: string)
    requires NoBreak(body) && |body| + 3 <= BUFFER_SIZE
    ensures OneLine(body + CRLF)
  {
    FrameOf(body);
  }

  lemma AuthWellFormed(user: string, name: string, secret: string)
    requires user != [] && name != [] && secret != []
    requires ValidParam(user, IdPattern) && ValidParam(name, DnamePattern) && ValidParam(secret, SecretPattern)
    ensures WellFormed(Auth, AuthLine(user, name, secret))
  {
    ParamNoBreak(user, IdPattern);
    ParamNoBreak(name, DnamePattern);
    ParamNoBreak(secret, SecretPattern);
    NoBreakJoin("AUTH ", user);
    NoBreakJoin("AUTH " + user, " AS ");
    NoBreakJoin("AUTH " + user + " AS ", name);
    NoBreakJoin("AUTH " + user + " AS " + name, " USING ");
    NoBreakJoin("AUTH " + user + " AS " + name + " USING ", secret);
    OneLineOf("AUTH " + user + " AS " + name + " USING " + secret);
    hide OneLine;
  }

  lemma JoinWellFormed(channel: string, name: string)
    requires channel != [] && name != [] && ValidParam(channel, IdPattern) && ValidParam(name, DnamePattern)
    ensures WellFormed(Join, JoinLine(channel, name))
  {
    ParamNoBreak(channel, IdPattern);
    ParamNoBreak(name, DnamePattern);
    NoBreakJoin("JOIN ", channel);
    NoBreakJoin("JOIN " + channel, " AS ");
    NoBreakJoin("JOIN " + channel + " AS ", name);
    OneLineOf("JOIN " + channel + " AS " + name);
    hide OneLine;
  }

  lemma TextWellFormed(typ: MsgType, name: string, content: string)
    requires typ == Msg || typ == Err
    requires name != [] && content != [] && ValidParam(name, DnamePattern) && ValidParam(content, TextPattern)
    ensures WellFormed(typ, TextLine(if typ == Msg then "MSG" else "ERR", name, content))
  {
    var keyword := if typ == Msg then "MSG" else "ERR";
    ParamNoBreak(name, DnamePattern);
    ParamNoBreak(content, TextPattern);
    NoBreakJoin(keyword, " FROM ");
    NoBreakJoin(keyword + " FROM ", name);
    NoBreakJoin(keyword + " FROM " + name, " IS ");
    NoBreakJoin(keyword + " FROM " + name + " IS ", content);
    OneLineOf(keyword + " FROM " + name + " IS " + content);
    TextLineBody(keyword, name, content);
    hide OneLine, TextLine;
  }

  lemma ErrText()
    ensures ValidParam(ERR_TEXT, TextPattern) && ERR_TEXT != []
  {
  }

  lemma OpenErrText()
    ensures ValidParam(OPEN_ERR_TEXT, TextPattern) && OPEN_ERR_TEXT != []
  {
  }

  /** The two texts that the client reports to the server are valid contents. */
  lemma OwnTexts()
    ensures ValidParam(ERR_TEXT, TextPattern) && ValidParam(OPEN_ERR_TEXT, TextPattern)
    ensures ERR_TEXT != [] && OPEN_ERR_TEXT != []
  {
    hide ValidParam;
    ErrText();
    OpenErrText();
  }

  lemma ByeWellFormed()
    ensures WellFormed(Bye, BYE_LINE)
  {
    assert BYE_LINE == "BYE" + CRLF;
    OneLineOf("BYE");
  }

  /** What is known about a parsed message and its line, whatever the user typed. */
  ghost predicate Encoded(o: Outcome, b: string, name: string) {
    && o.typ in {UserCmd, Auth, Join, Rename, Help, Msg}
    && ValidName(o.name)
    && (name != [] ==> o.name != [])
    && (o.ready ==> o.typ in {UserCmd, Auth, Join, Msg})
    && (o.ready && o.typ == UserCmd ==> b == "")
    && (o.ready && o.typ == Auth ==> o.name != [] && b != "" && WellFormed(Auth, b))
    && (o.ready && o.typ == Join ==> b != "" && (name != [] ==> WellFormed(Join, b)))
    && (o.ready && o.typ == Msg && name != [] ==> b == "" || WellFormed(Msg, b))
  }

  lemma LinesNonEmpty()
    ensures forall user, name, secret :: AuthLine(user, name, secret) != ""
    ensures forall channel, name :: JoinLine(channel, name) != ""
  {
  }

  lemma GrammarEncoded(line: string, name: string)
    requires ValidName(name)
    ensures Encoded(Grammar(line, name), TcpEncode(Grammar(line, name), line), name)
  {
    GrammarName(line, name);
    GrammarReady(line, name);
    GrammarParts(line, name);
    GrammarOk(line, name);
    var o := Grammar(line, name);
    LinesNonEmpty();
    hide Grammar, WellFormed, AuthLine, JoinLine, TextLine, ValidParam;
    if o.ok && o.typ == Auth {
      AuthWellFormed(o.parts[0], o.parts[1], o.parts[2]);
    } else if o.ok && o.typ == Join {
      if name != [] {
        JoinWellFormed(o.parts[0], o.name);
      }
    } else if o.ok && o.typ == Msg && name != [] {
      TextWellFormed(Msg, o.name, line);
    }
  }

  lemma GrammarOk(line: string, name: string)
    ensures var o := Grammar(line, name);
      (o.typ in {Auth, Join} && o.ready ==> o.ok) && (o.typ in {Join, Msg} ==> o.name == name)
  {
  }

  // ---------- the language of the lines sent ----------

  /** The invariant of every reachable state. */
  ghost predicate Inv(s: Session) {
    var h := Summary(s.log);
    && ValidName(s.dname) && (s.fsm != StartState ==> s.dname != [])
    && h.wellFormed
    && (if s.mode.Chatting? then
          match s.fsm
          case StartState => h.kinds == [] && !s.replyPending
          case AuthState => h.kinds != [] && OnlyAuths(h.kinds)
          case OpenState => h.kinds != [] && Talk(h.kinds)
        else Language(h.kinds))
  }

  lemma InitInv(stream: string, ready: bool)
    ensures Inv(Init(stream, ready)) && Debt(Init(stream, ready)) == 0
  {
  }

  /** Whatever was said so far, the session may end after it. */
  lemma InvTalks(s: Session)
    requires Inv(s) && s.mode.Chatting?
    ensures Talk(Summary(s.log).kinds)
  {
    hide ValidParam, OnlyAuths, Talk, Language, Summary;
    NoTalk();
    if s.fsm == AuthState {
      AuthMore(Summary(s.log).kinds);
    }
  }

  /** The ERR that the client itself sends. */
  lemma ErrLine(s: Session, text: string)
    requires ValidName(s.dname) && (s.fsm != StartState ==> s.dname != [])
    requires text == ERR_TEXT || (text == OPEN_ERR_TEXT && s.fsm == OpenState)
    ensures var line := TextLine("ERR", s.dname, text);
      line != "" && (WellFormed(Err, line) || NamelessErr(Err, line, s.fsm))
  {
    OwnTexts();
    if s.dname != [] {
      TextWellFormed(Err, s.dname, text);
    }
    hide WellFormed;
    assert TextLine("ERR", s.dname, text) != "";
  }

  lemma LeaveInv(s: Session, bye: bool, code: int)
    requires Inv(s) && s.mode.Chatting?
    ensures Inv(Leave(s, bye, code))
  {
    hide ValidParam, WellFormed, Talk, OnlyAuths, Language, Summary, Record;
    ByeWellFormed();
    InvTalks(s);
    TalkEnds(Summary(s.log).kinds);
    if bye {
      RecordLine(Summary(s.log), Bye, BYE_LINE, s.fsm);
    }
  }

  lemma AbortInv(s: Session)
    requires Inv(s) && s.mode.Chatting?
    ensures Inv(s.(mode := Aborted))
  {
    hide Summary, ValidParam, WellFormed, Talk, OnlyAuths, Language;
    LeaveInv(s, false, EXIT_FAILURE);
  }

  lemma ErrorExitInv(s: Session, text: string)
    requires Inv(s) && s.mode.Chatting? && (text == ERR_TEXT || (text == OPEN_ERR_TEXT && s.fsm == OpenState))
    ensures Inv(ErrorExit(s, text))
  {
    hide ValidParam, WellFormed, NamelessErr, Talk, OnlyAuths, Language, TextLine, Summary, Record;
    var h, line := Summary(s.log), TextLine("ERR", s.dname, text);
    ErrLine(s, text);
    ByeWellFormed();
    InvTalks(s);
    TalkEnds(h.kinds);
    RecordLine(h, Err, line, s.fsm);
    RecordLine(Record(h, Sent(Err, line, s.fsm)), Bye, BYE_LINE, s.fsm);
  }

  lemma QuietInv(s: Session, o: Obs)
    requires Inv(s) && !o.Sent?
    ensures Inv(Emit(s, o))
  {
    hide ValidParam, WellFormed, Talk, OnlyAuths, Language;
  }

  lemma DispatchInv(s: Session, typ: MsgType, text: string)
    requires Inv(s) && s.mode.Chatting?
    ensures Inv(Dispatch(s, typ, text).s)
  {
    hide Summary, ValidParam, WellFormed, Talk, OnlyAuths, Language, Leave, ErrorExit;
    ErrorExitInv(s, ERR_TEXT);
    LeaveInv(s, true, EXIT_FAILURE);
    LeaveInv(s, false, EXIT_SUCCESS);
    QuietInv(s, Printed(text));
    if s.fsm == AuthState {
      AuthMore(Summary(s.log).kinds);
    } else if s.fsm == OpenState {
      ErrorExitInv(s, OPEN_ERR_TEXT);
    }
  }

  lemma ReceiveInv(s: Session)
    requires Inv(s) && s.mode.Chatting?
    ensures Inv(Receive(s).s)
  {
    hide Summary, ValidParam, WellFormed, Talk, OnlyAuths, Language, Leave, Dispatch, TcpDecode, NextFrame;
    match NextFrame(s.stream)
    case None => LeaveInv(s.(stream := ""), false, EXIT_FAILURE);
    case Some(n) =>
      var f := s.stream[..n];
      var u := s.(stream := s.stream[n..]);
      QuietInv(u, Got(f));
      var t := Emit(u, Got(f));
      match TcpDecode(f) {
      case OutOfRange =>
        AbortInv(t);
      case Decoded(typ, text, shown) =>
        if shown != [] {
          QuietInv(t, Console(shown[0]));
        }
        DispatchInv(Show(t, shown), typ, text);
      }
  }

  lemma SubmitInv(s: Session, o: Outcome, b: string)
    requires Inv(s) && s.mode.Chatting? && Encoded(o, b, s.dname)
    ensures Inv(Submit(s, o, b))
  {
    hide ValidParam, WellFormed, NamelessErr, Talk, OnlyAuths, Language, Summary, Record;
    var h := Summary(s.log);
    if !o.ready {
    } else if s.fsm == OpenState {
      if o.typ == Join {
        RecordLine(h, Join, b, OpenState);
        TalkMore(h.kinds, Join);
      } else if o.typ == Auth {
      } else if b == "" {
        RecordBlank(h, o.typ, OpenState);
      } else {
        RecordLine(h, Msg, b, OpenState);
        TalkMore(h.kinds, Msg);
      }
    } else if o.typ == Auth {
      RecordLine(h, Auth, b, AuthState);
      NoTalk();
      AuthMore(h.kinds);
    }
  }

  lemma StdinInv(s: Session, stdin: Stdin)
    requires Inv(s) && s.mode.Chatting?
    ensures Inv(ReadStdin(s, stdin))
  {
    hide Summary, ValidParam, WellFormed, Talk, OnlyAuths, Language, Leave, Submit, Grammar, TcpEncode, Encoded;
    LeaveInv(s, true, EXIT_FAILURE);
    if stdin.Line? {
      QuietInv(s, Read(stdin.text));
      var t := Emit(s, Read(stdin.text));
      GrammarEncoded(stdin.text, t.dname);
      var o := Grammar(stdin.text, t.dname);
      SubmitInv(t, o, TcpEncode(o, stdin.text));
    }
  }

  // ---------- the poll gate ----------

  /** Requests sent that still lack a printed reply. */
  ghost function Debt(s: Session): int {
    Summary(s.log).requests - Summary(s.log).replies - (if s.replyPending then 1 else 0)
  }

  /** What handling a received message can do: every cleared pending mark is a printed reply, and the
      iteration goes on to standard input only with nothing pending. */
  ghost predicate Effect(s: Session, r: Next, typ: MsgType) {
    && Debt(r.s) == Debt(s) && Summary(r.s.log).lines == Summary(s.log).lines
    && Summary(r.s.log).requests == Summary(s.log).requests
    && r.s.stdinReady == s.stdinReady
    && (r.goesOn ==> r.s.mode.Chatting? && !r.s.replyPending)
    && (r.s.fsm == s.fsm || (s.fsm == AuthState && r.s.fsm == OpenState && typ == ReplyOk && s.replyPending))
  }

  lemma LeaveEffect(s: Session, text: string, bye: bool, code: int, typ: MsgType)
    ensures Effect(s, Next(Leave(s, bye, code), false), typ)
    ensures Effect(s, Next(ErrorExit(s, text), false), typ)
  {
    hide WellFormed, TextLine, Summary;
    var t := Send(s, Err, TextLine("ERR", s.dname, text));
    if TextLine("ERR", s.dname, text) == "" { } else { }
  }

  lemma DispatchEffect(s: Session, typ: MsgType, text: string)
    requires s.mode.Chatting? && typ in {Bye, ReplyOk, ReplyNok, Err, Msg, InvalidMsg}
    ensures Effect(s, Dispatch(s, typ, text), typ)
  {
    hide Summary, Leave, ErrorExit, WellFormed;
    LeaveEffect(s, ERR_TEXT, true, EXIT_FAILURE, typ);
    LeaveEffect(s, OPEN_ERR_TEXT, false, EXIT_SUCCESS, typ);
    if s.fsm == StartState {
    } else if s.fsm == AuthState {
      if typ == ReplyOk { } else if typ == ReplyNok { } else { }
    } else {
      if typ == ReplyOk { } else if typ == ReplyNok { } else { }
    }
  }

  /** The type of the message that the next POLLIN of the socket brings. */
  function Incoming(s: Session): MsgType {
    match NextFrame(s.stream)
    case None => ToBeDecided
    case Some(n) =>
      match TcpDecode(s.stream[..n])
      case OutOfRange => ToBeDecided
      case Decoded(typ, _, _) => typ
  }

  lemma ReceiveEffect(s: Session)
    requires s.mode.Chatting?
    ensures Effect(s, Receive(s), Incoming(s))
  {
    hide Summary, Leave, Dispatch, TcpDecode, NextFrame;
    match NextFrame(s.stream)
    case None => LeaveEffect(s.(stream := ""), "", false, EXIT_FAILURE, ToBeDecided);
    case Some(n) =>
      var f := s.stream[..n];
      InboundTotal(f);
      match TcpDecode(f) {
      case OutOfRange =>
      case Decoded(typ, text, shown) =>
        DispatchEffect(Show(Emit(s.(stream := s.stream[n..]), Got(f)), shown), typ, text);
      }
  }

  /** What a poll may change, the bit of standard input, matters neither to the invariant nor to the debt. */
  lemma PollKeeps(s: Session, ready: bool)
    requires Inv(s)
    ensures var t := s.(stdinReady := ready);
      Inv(t) && Debt(t) == Debt(s) && Incoming(t) == Incoming(s)
  {
    hide Summary;
  }

  lemma InvName(s: Session)
    requires Inv(s)
    ensures ValidName(s.dname)
  {
  }

  lemma EffectGoesOn(s: Session, r: Next, typ: MsgType)
    requires Effect(s, r, typ)
    ensures r.goesOn ==> r.s.mode.Chatting? && !r.s.replyPending
  {
  }

  lemma StepInv(s: Session, e: Turn)
    requires Inv(s)
    ensures Inv(Step(s, e))
  {
    hide Inv, Leave, Receive, ReadStdin, Effect;
    if s.mode.Chatting? && e.poll.Revents? {
      var t := if s.replyPending then s else s.(stdinReady := e.poll.stdin);
      PollKeeps(s, t.stdinReady);
      ReceiveInv(t);
      ReceiveEffect(t);
      EffectGoesOn(t, Receive(t), Incoming(t));
      if e.poll.socket {
        if Receive(t).goesOn {
          StdinInv(Receive(t).s, e.stdin);
        }
      } else {
        StdinInv(t, e.stdin);
      }
    } else if s.mode.Chatting? {
      LeaveInv(s, false, EXIT_FAILURE);
    }
  }

  /** Over whole runs: the non-empty lines sent form a word of the language, every one of them is
      well-formed except an ERR sent before any display name was chosen, and the display name
      is empty or 1 to 20 printable characters, and never empty outside the start state. */
  lemma {:induction false} TraceLanguage(stream: string, ready: bool, script: seq<Turn>, n: nat)
    requires n <= |script|
    ensures var t := Run(Init(stream, ready), script, 0, n);
      Inv(t) && Language(Summary(t.log).kinds) && Summary(t.log).wellFormed
  {
    hide Step;
    if n > 0 {
      TraceLanguage(stream, ready, script, n - 1);
      StepInv(Run(Init(stream, ready), script, 0, n - 1), script[n - 1]);
    } else {
      InitInv(stream, ready);
    }
    var t := Run(Init(stream, ready), script, 0, n);
    if t.mode.Chatting? && t.fsm == AuthState {
      AuthMore(Summary(t.log).kinds);
    }
  }

  /** With a reply pending only the socket is polled; a wake-up without POLLIN then falls through to the
      bit that an earlier poll left for standard input. */
  predicate StaleRead(s: Session, e: Turn) {
    s.mode.Chatting? && s.replyPending && e.poll.Revents? && !e.poll.socket && s.stdinReady
  }

  lemma SubmitReads(s: Session, o: Outcome, b: string)
    ensures var g, h := Summary(s.log), Summary(Submit(s, o, b).log); h.lines == g.lines && h.replies == g.replies
  {
    hide Summary, WellFormed;
  }

  lemma StdinReads(s: Session, stdin: Stdin)
    ensures var g, h := Summary(s.log), Summary(ReadStdin(s, stdin).log);
      && h.lines == g.lines + (if s.stdinReady && stdin.Line? && stdin.text != "" then 1 else 0)
      && h.replies == g.replies
  {
    hide Summary, Submit, Grammar, TcpEncode, WellFormed;
    if s.stdinReady && stdin.Line? && stdin.text != "" {
      var t := Emit(s, Read(stdin.text));
      var o := Grammar(stdin.text, t.dname);
      SubmitReads(t, o, TcpEncode(o, stdin.text));
    }
  }

  /** A line is taken from the user while the reply is still missing exactly at such a wake-up. */
  lemma GateExact(s: Session, e: Turn)
    requires s.mode.Chatting? && s.replyPending
    ensures var g, h := Summary(s.log), Summary(Step(s, e).log);
      h.lines > g.lines && h.replies == g.replies <==> StaleRead(s, e) && e.stdin.Line? && e.stdin.text != ""
  {
    hide Receive, ReadStdin, Summary, Leave;
    if e.poll.Revents? {
      ReceiveEffect(s);
      StdinReads(if e.poll.socket then Receive(s).s else s, e.stdin);
    } else {
      LeaveEffect(s, "", false, EXIT_FAILURE, ToBeDecided);
    }
  }

  /** Requests sent are the replies printed and the pending one. */
  ghost predicate Paired(s: Session) {
    Debt(s) == 0
  }

  /** The turn brings a positive REPLY while an AUTH is pending. */
  predicate OpensBy(s: Session, e: Turn) {
    s.fsm == AuthState && s.replyPending && e.poll.Revents? && e.poll.socket && Incoming(s) == ReplyOk
  }

  /** The line is a request that will be sent: /auth before the open state, /join in it. */
  predicate Asks(s: Session, o: Outcome) {
    o.ready && o.typ == if s.fsm == OpenState then Join else Auth
  }

  /** Standard input holds a request while the reply to another one is still missing. */
  predicate SecondRequest(s: Session, stdin: Stdin) {
    && s.replyPending && s.stdinReady && stdin.Line? && stdin.text != ""
    && Asks(s, Grammar(stdin.text, s.dname))
  }

  predicate DoubleRequest(s: Session, e: Turn) {
    StaleRead(s, e) && SecondRequest(s, e.stdin)
  }

  lemma StdinEffect(s: Session, stdin: Stdin)
    requires s.mode.Chatting? && ValidName(s.dname)
    ensures Debt(ReadStdin(s, stdin)) == Debt(s) + if SecondRequest(s, stdin) then 1 else 0
    ensures s.fsm != OpenState ==> ReadStdin(s, stdin).fsm != OpenState
  {
    hide Summary, Leave, Submit, Grammar, TcpEncode, Encoded;
    LeaveEffect(s, "", true, EXIT_FAILURE, ToBeDecided);
    if s.stdinReady && stdin.Line? && stdin.text != "" {
      var t := Emit(s, Read(stdin.text));
      GrammarEncoded(stdin.text, t.dname);
      var o := Grammar(stdin.text, t.dname);
      SubmitEffect(t, o, TcpEncode(o, stdin.text));
    }
  }

  lemma SubmitEffect(s: Session, o: Outcome, b: string)
    requires Encoded(o, b, s.dname)
    ensures Debt(Submit(s, o, b)) == Debt(s) + if s.replyPending && Asks(s, o) then 1 else 0
    ensures s.fsm != OpenState ==> Submit(s, o, b).fsm != OpenState
  {
    hide Summary, WellFormed, ValidParam;
    if !o.ready {
    } else if s.fsm == OpenState {
      if o.typ == Join {
      } else if o.typ == Auth {
      } else {
      }
    } else if o.typ == Auth {
      if s.fsm == StartState { } else { }
    } else {
    }
  }

  /** A turn keeps requests and replies paired exactly unless it takes a second request through the stale
      bit of poll; and only the reply to a pending AUTH opens the session. */
  lemma PairedStep(s: Session, e: Turn)
    requires Inv(s)
    ensures Paired(s) ==> (Paired(Step(s, e)) <==> !DoubleRequest(s, e))
    ensures s.fsm != OpenState && Step(s, e).fsm == OpenState ==> OpensBy(s, e)
  {
    hide Inv, Leave, Receive, ReadStdin, Debt, Summary, Incoming, Asks, Grammar;
    if s.mode.Chatting? && e.poll.Revents? {
      var t := if s.replyPending then s else s.(stdinReady := e.poll.stdin);
      PollKeeps(s, t.stdinReady);
      ReceiveEffect(t);
      ReceiveInv(t);
      if e.poll.socket {
        if Receive(t).goesOn {
          InvName(Receive(t).s);
          StdinEffect(Receive(t).s, e.stdin);
        }
      } else {
        InvName(t);
        StdinEffect(t, e.stdin);
      }
    } else if s.mode.Chatting? {
      LeaveEffect(s, "", false, EXIT_FAILURE, ToBeDecided);
    }
  }

  /** No turn before n takes a second request. */
  predicate SingleRequests(s: Session, script: seq<Turn>, n: nat)
    requires n <= |script|
  {
    forall k | 0 <= k < n :: !DoubleRequest(Run(s, script, 0, k), script[k])
  }

  ghost predicate PairedThroughout(s: Session, script: seq<Turn>, n: nat)
    requires n <= |script|
  {
    forall k | 0 <= k <= n :: Paired(Run(s, script, 0, k))
  }

  lemma ThroughoutSplit(s: Session, script: seq<Turn>, n: nat)
    requires 0 < n <= |script|
    ensures PairedThroughout(s, script, n)
       <==> PairedThroughout(s, script, n - 1) && Paired(Step(Run(s, script, 0, n - 1), script[n - 1]))
    ensures SingleRequests(s, script, n)
       <==> SingleRequests(s, script, n - 1) && !DoubleRequest(Run(s, script, 0, n - 1), script[n - 1])
    ensures PairedThroughout(s, script, n - 1) ==> Paired(Run(s, script, 0, n - 1))
  {
    hide Step, Paired, DoubleRequest;
    assert Run(s, script, 0, n) == Step(Run(s, script, 0, n - 1), script[n - 1]);
  }

  /** Over whole runs: requests sent equal replies printed plus the pending one, if and only if no turn
      takes a second request while one is pending. */
  lemma {:induction false} RequestPairing(stream: string, ready: bool, script: seq<Turn>, n: nat)
    requires n <= |script|
    ensures PairedThroughout(Init(stream, ready), script, n) <==> SingleRequests(Init(stream, ready), script, n)
  {
    hide Step, Inv, Debt, DoubleRequest;
    var s := Init(stream, ready);
    if n > 0 {
      hide PairedThroughout, SingleRequests, Run, Paired;
      RequestPairing(stream, ready, script, n - 1);
      ThroughoutSplit(s, script, n);
      TraceLanguage(stream, ready, script, n - 1);
      PairedStep(Run(s, script, 0, n - 1), script[n - 1]);
    } else {
      InitInv(stream, ready);
    }
  }

  /** Turn k of the run enters the open state. */
  predicate Enters(s: Session, script: seq<Turn>, k: nat)
    requires k < |script|
  {
    var t := Run(s, script, 0, k);
    t.fsm != OpenState && Step(t, script[k]).fsm == OpenState
  }

  lemma {:induction false} EnteredOnce(s: Session, script: seq<Turn>, n: nat)
    requires n <= |script| && s.fsm != OpenState && Run(s, script, 0, n).fsm == OpenState
    ensures exists k | 0 <= k < n :: Enters(s, script, k)
  {
    hide Step;
    var t := Run(s, script, 0, n - 1);
    assert Run(s, script, 0, n) == Step(t, script[n - 1]);
    if t.fsm == OpenState {
      EnteredOnce(s, script, n - 1);
    } else {
      assert Enters(s, script, n - 1);
    }
  }

  lemma EntrySafe(stream: string, ready: bool, script: seq<Turn>, k: nat)
    requires k < |script| && Enters(Init(stream, ready), script, k)
    ensures OpensBy(Run(Init(stream, ready), script, 0, k), script[k])
  {
    hide Step, Run, OpensBy, Inv, Debt, DoubleRequest;
    TraceLanguage(stream, ready, script, k);
    PairedStep(Run(Init(stream, ready), script, 0, k), script[k]);
  }

  /** Authentication safety over all runs: each entry to the open state is by a positive REPLY received while
      an AUTH was pending, and a session in the open state has entered it. */
  lemma AuthenticationSafety(stream: string, ready: bool, script: seq<Turn>, n: nat)
    requires n <= |script|
    ensures var s := Init(stream, ready);
      && (forall k | 0 <= k < n && Enters(s, script, k) :: OpensBy(Run(s, script, 0, k), script[k]))
      && (Run(s, script, 0, n).fsm == OpenState ==> exists k | 0 <= k < n :: Enters(s, script, k))
  {
    hide Step, Run, OpensBy, Enters;
    var s := Init(stream, ready);
    forall k | 0 <= k < n && Enters(s, script, k)
      ensures OpensBy(Run(s, script, 0, k), script[k])
    {
      EntrySafe(stream, ready, script, k);
    }
    if Run(s, script, 0, n).fsm == OpenState {
      EnteredOnce(s, script, n);
    }
  }
}
