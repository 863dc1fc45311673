/** The TCP client as one flat state machine: one turn is one iteration of the poll loop, and the bytes
    of the connection are a stream from which accept_msg takes frames. */
module TcpSession {
  import opened Chat
  import opened UserLine
  import opened TcpWire

  datatype Turn = Turn(poll: Poll, stdin: Stdin)

  /** Chatting until exit_program; Aborted by the exception of an extraction out of range. */
  datatype Mode = Chatting | Ended(code: int) | Aborted

  datatype Obs =
    | Read(line: string)
    | Got(frame: string)
    | Sent(typ: MsgType, bytes: string, from: FsmState)
    | Printed(text: string)
    | Console(shownLine: Shown)

  datatype Session = Session(
    mode: Mode,
    fsm: FsmState,
    dname: string,
    replyPending: bool,     // reply_msg_sent
    stdinReady: bool,       // revents of standard input, kept between calls of poll
    stream: string,         // bytes of the connection not received yet
    log: seq<Obs>
  )

  function Init(stream: string, stdinReady: bool): Session {
    Session(Chatting, StartState, "", false, stdinReady, stream, [])
  }

  /** What a log says in summary: the types of the non-empty lines sent, the number of requests sent, of
      replies printed and of user lines read, whether every line sent is well-formed apart from an ERR
      without a name, and whether every line sent is well-formed without exception. */
  datatype History = History(kinds: seq<MsgType>, requests: nat, replies: nat, lines: nat, wellFormed: bool,
                             strict: bool)

  // ---------- the grammar of the protocol ----------

  ghost predicate AnAuthLine(b: string) {
    exists user, name, secret |
      && user != [] && name != [] && secret != []
      && ValidParam(user, IdPattern) && ValidParam(name, DnamePattern) && ValidParam(secret, SecretPattern) ::
      b == AuthLine(user, name, secret)
  }

  ghost predicate AJoinLine(b: string) {
    exists channel, name |
      channel != [] && name != [] && ValidParam(channel, IdPattern) && ValidParam(name, DnamePattern) ::
      b == JoinLine(channel, name)
  }

  ghost predicate ATextLine(keyword: string, b: string) {
    exists name, content |
      name != [] && content != [] && ValidParam(name, DnamePattern) && ValidParam(content, TextPattern) ::
      b == TextLine(keyword, name, content)
  }

  /** One line of the grammar: it fits the buffer with its terminator and CRLF stands at its end only. */
  predicate OneLine(b: string) {
    |b| + 1 <= BUFFER_SIZE && EndsCrlf(b) && forall m | 0 <= m < |b| :: !EndsCrlf(b[..m])
  }

  ghost predicate WellFormed(typ: MsgType, b: string) {
    && OneLine(b)
    && match typ
       case Auth => AnAuthLine(b)
       case Join => AJoinLine(b)
       case Msg => ATextLine("MSG", b)
       case Err => ATextLine("ERR", b)
       case Bye => b == BYE_LINE
       case _ => false
  }

  /** The ERR that leaves the start state before any display name was chosen. */
  predicate NamelessErr(typ: MsgType, b: string, from: FsmState) {
    typ == Err && from == StartState && b == TextLine("ERR", "", ERR_TEXT)
  }

  ghost function Record(h: History, o: Obs): History {
    match o
    case Sent(typ, bytes, from) =>
      if bytes == "" then h
      else h.(kinds := h.kinds + [typ],
              requests := h.requests + (if typ == Auth || typ == Join then 1 else 0),
              wellFormed := h.wellFormed && (WellFormed(typ, bytes) || NamelessErr(typ, bytes, from)),
              strict := h.strict && WellFormed(typ, bytes))
    case Printed(_) => h.(replies := h.replies + 1)
    case Read(_) => h.(lines := h.lines + 1)
    case _ => h
  }

  ghost function Summary(log: seq<Obs>): History {
    if log == [] then History([], 0, 0, 0, true, true)
    else Record(Summary(log[..|log| - 1]), log[|log| - 1])
  }

  // ---------- one entry of the log in the summary ----------

  /** A line that is well-formed, or the ERR without a name. */
  lemma RecordLine(h: History, typ: MsgType, b: string, from: FsmState)
    requires b != "" && (WellFormed(typ, b) || NamelessErr(typ, b, from))
    ensures var r := Record(h, Sent(typ, b, from));
      r.kinds == h.kinds + [typ] && r.wellFormed == h.wellFormed
  {
    hide WellFormed, NamelessErr;
  }

  lemma RecordBlank(h: History, typ: MsgType, from: FsmState)
    ensures Record(h, Sent(typ, "", from)) == h
  {
  }

  // ---------- steps ----------

  function Emit(s: Session, o: Obs): (r: Session)
    ensures Summary(r.log) == Record(Summary(s.log), o)
  {
    assert (s.log + [o])[..|s.log|] == s.log;
    s.(log := s.log + [o])
  }

  function Send(s: Session, typ: MsgType, bytes: string): Session {
    Emit(s, Sent(typ, bytes, s.fsm))
  }

  function Leave(s: Session, bye: bool, code: int): Session {
    (if bye then Send(s, Bye, BYE_LINE) else s).(mode := Ended(code))
  }

  function ErrorExit(s: Session, text: string): Session {
    Leave(Send(s, Err, TextLine("ERR", s.dname, text)), true, EXIT_FAILURE)
  }

  function Show(s: Session, lines: seq<Shown>): Session {
    if lines == [] then s else Emit(s, Console(lines[0]))
  }

  function TakeReply(s: Session, text: string): Session {
    if s.replyPending then Emit(s, Printed(text)).(replyPending := false) else s
  }

  /** The session after a received message, and whether the same iteration goes on to standard input. */
  datatype Next = Next(s: Session, goesOn: bool)

  function HandleAuth(s: Session, typ: MsgType, text: string): Next {
    match typ
    case ReplyOk =>
      if s.replyPending then Next(TakeReply(s, text).(fsm := OpenState), false) else Next(s, true)
    case ReplyNok => Next(TakeReply(s, text), !s.replyPending)
    case Err => Next(Leave(s, true, EXIT_FAILURE), false)
    case Bye => Next(ErrorExit(s, ERR_TEXT), false)
    case Msg => Next(ErrorExit(s, ERR_TEXT), false)
    case InvalidMsg => Next(ErrorExit(s, ERR_TEXT), false)
    case _ => Next(s, true)
  }

  function HandleOpen(s: Session, typ: MsgType, text: string): Next {
    match typ
    case Err => Next(Leave(s, true, EXIT_FAILURE), false)
    case Bye => Next(Leave(s, false, EXIT_SUCCESS), false)
    case ReplyNok => Next(TakeReply(s, text), true)
    case ReplyOk => Next(TakeReply(s, text), true)
    case Msg => Next(s, false)
    case _ => Next(ErrorExit(s, OPEN_ERR_TEXT), false)
  }

  function Dispatch(s: Session, typ: MsgType, text: string): Next {
    match s.fsm
    case StartState => if typ != ToBeDecided then Next(ErrorExit(s, ERR_TEXT), false) else Next(s, true)
    case AuthState => HandleAuth(s, typ, text)
    case OpenState => HandleOpen(s, typ, text)
  }

  /** A POLLIN of the socket: one frame is received and handled. */
  function Receive(s: Session): Next {
    match NextFrame(s.stream)
    case None => Next(Leave(s.(stream := ""), false, EXIT_FAILURE), false)
    case Some(n) =>
      var f := s.stream[..n];
      var t := Emit(s.(stream := s.stream[n..]), Got(f));
      match TcpDecode(f)
      case OutOfRange => Next(t.(mode := Aborted), false)
      case Decoded(typ, text, shown) => Dispatch(Show(t, shown), typ, text)
  }

  /** A parsed user message. */
  function Submit(s: Session, o: Outcome, bytes: string): Session {
    var t := s.(dname := if o.typ == Auth || o.typ == Rename then o.name else s.dname);
    if !o.ready then t
    else match t.fsm
      case StartState => if o.typ == Auth then Send(t.(replyPending := true, fsm := AuthState), Auth, bytes) else t
      case AuthState => if o.typ == Auth then Send(t.(replyPending := true), Auth, bytes) else t
      case OpenState =>
        if o.typ == Join then Send(t.(replyPending := true), Join, bytes)
        else if o.typ == Auth then t
        else Send(t, o.typ, bytes)
  }

  function UserInput(s: Session, line: string): Session {
    var o := Grammar(line, s.dname);
    Submit(s, o, TcpEncode(o, line))
  }

  /** The standard-input half of an iteration. */
  function ReadStdin(s: Session, stdin: Stdin): Session {
    if !s.stdinReady then s
    else match stdin
      case Eof => Leave(s, true, EXIT_FAILURE)
      case Line(text) => if text == "" then s else UserInput(Emit(s, Read(text)), text)
  }

  function Step(s: Session, e: Turn): Session {
    if !s.mode.Chatting? then s
    else match e.poll
      case PollFailed => Leave(s, false, EXIT_FAILURE)
      case Revents(socket, stdin) =>
        var t := if s.replyPending then s else s.(stdinReady := stdin);
        if socket then
          var r := Receive(t);
          if r.goesOn then ReadStdin(r.s, e.stdin) else r.s
        else ReadStdin(t, e.stdin)
  }

  /** The session after turns i to j of a script. */
  function Run(s: Session, script: seq<Turn>, i: nat, j: nat): Session
    requires i <= j <= |script|
    decreases j - i
  {
    if i == j then s else Step(Run(s, script, i, j - 1), script[j - 1])
  }
}
