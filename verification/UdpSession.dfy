/** The UDP client as one flat state machine. The two event loops of the program, the poll loop and the
    retransmission loop nested in it, and the wait for the confirmation of BYE are control locations
    (Mode) of the machine. A turn is what the environment does in one iteration of whichever loop runs. */
module UdpSession {
  import opened Chat
  import opened UserLine
  import opened UdpWire

  type Port = p: int | 0 <= p < 0x1_0000

  /** Outcome of recvfrom. An empty datagram makes the program look at a left-over errno, so it behaves
      as one of the two other outcomes. */
  datatype Recv = Datagram(packet: Packet, port: Port) | TimedOut | RecvFailed

  datatype Turn = Turn(poll: Poll, recv: Recv, stdin: Stdin)

  datatype Mode =
    | Polling
    | Waiting(id: Id, bytes: string, retries: nat)
    | Leaving(code: int, tries: nat)
    | Exited(code: int)

  /** One observable action; the log of a session lists them in order. */
  datatype Obs =
    | Read(line: string)
    | Got(packet: Packet, port: Port)
    | Sent(typ: MsgType, num: nat, bytes: string, dest: Port)
    | Resent(again: string, to: Port)
    | Printed(id: Id, ref: Id, text: string)
    | Console(shownLine: Shown)

  datatype Session = Session(
    mode: Mode,
    fsm: FsmState,
    dname: string,
    replyPending: bool,     // reply_msg_sent
    counter: nat,           // msg_counter
    confirmPending: bool,   // confirm_msg_sent
    portOpen: bool,         // change_server_port
    serverPort: Port,       // source port of the last datagram that accept_msg took
    destPort: Port,         // where messages are sent
    confirmIds: seq<Id>,
    replyIds: seq<Id>,
    seen: seq<Id>,
    stdinReady: bool,       // revents of standard input, kept between calls of poll
    log: seq<Obs>
  )

  /** The constructor's state; revents of standard input is not initialised. */
  function Init(dest: Port, stdinReady: bool): Session {
    Session(Polling, StartState, "", false, 0, false, true, 0xFFFF, dest, [], [], [], stdinReady, [])
  }

  predicate Running(s: Session) {
    s.mode.Polling? || s.mode.Waiting?
  }

  /** Standard input is not polled while an answer is outstanding. */
  predicate Gated(s: Session) {
    s.replyPending || s.confirmPending
  }

  /** What a log says in summary: the ids of the user's messages (AUTH, JOIN, MSG and blank lines), of the
      requests among them (AUTH and JOIN), of the AUTHs and of the chat messages (JOIN, MSG and blank
      lines); types and numbers of all messages the client originates; the ids confirmed; the ids of the
      REPLYs printed and of the MSGs shown; the verdict of the stop-and-wait monitor; the number of
      lines read from the user; the retransmitted datagrams, the bytes of the last user message, and
      whether every retransmission repeated them; and the ports that anything was sent to. */
  datatype History = History(users: seq<Id>, requests: seq<Id>, auths: seq<Id>, chats: seq<Id>,
                             kinds: seq<MsgType>, numbers: seq<nat>, confirms: seq<Id>, replies: seq<Id>,
                             shown: seq<int>, wait: Wait, lines: nat, resent: seq<string>, last: string,
                             faithful: bool, dests: set<Port>)

  /** The stop-and-wait monitor: which user message still lacks the CONFIRM that carries its id. */
  datatype Wait = Free | Outstanding(id: Id) | Violated

  predicate IsUserType(typ: MsgType) {
    typ in {Auth, Join, Msg, UserCmd}
  }

  function Monitor(w: Wait, o: Obs): Wait {
    match o
    case Sent(typ, num, _, _) =>
      if !IsUserType(typ) then w else if w.Free? then Outstanding(ToId(num)) else Violated
    case Got(packet, _) => if w.Outstanding? && IsConfirm(packet, w.id) then Free else w
    case _ => w
  }

  function Record(h: History, o: Obs): History {
    var g := h.(wait := Monitor(h.wait, o));
    match o
    case Sent(typ, num, bytes, dest) =>
      var f := g.(dests := h.dests + {dest});
      if typ == Confirm then f.(confirms := h.confirms + [ToId(num)])
      else if !IsUserType(typ) then f.(kinds := h.kinds + [typ], numbers := h.numbers + [num])
      else
        var id := ToId(num);
        f.(kinds := h.kinds + [typ], numbers := h.numbers + [num], users := h.users + [id], last := bytes,
           requests := if typ == Auth || typ == Join then h.requests + [id] else h.requests,
           auths := if typ == Auth then h.auths + [id] else h.auths,
           chats := if typ == Auth then h.chats else h.chats + [id])
    case Resent(bytes, dest) =>
      g.(resent := h.resent + [bytes], faithful := h.faithful && bytes == h.last, dests := h.dests + {dest})
    case Printed(id, _, _) => g.(replies := h.replies + [id])
    case Read(_) => g.(lines := h.lines + 1)
    case Console(line) => if line.typ == Msg then g.(shown := h.shown + [line.id]) else g
    case _ => g
  }

  function Summary(log: seq<Obs>): History {
    if log == [] then History([], [], [], [], [], [], [], [], [], Free, 0, [], "", true, {})
    else Record(Summary(log[..|log| - 1]), log[|log| - 1])
  }

  // ---------- one entry of the log in the summary ----------

  lemma EmptySummary()
    ensures Summary([]) == History([], [], [], [], [], [], [], [], [], Free, 0, [], "", true, {})
  {
  }

  lemma RecordGot(h: History, packet: Packet, port: Port)
    ensures Record(h, Got(packet, port)) == h.(wait := Monitor(h.wait, Got(packet, port)))
  {
  }

  lemma RecordConfirm(h: History, id: Id, bytes: string, dest: Port)
    ensures Record(h, Sent(Confirm, id, bytes, dest)) == h.(confirms := h.confirms + [id], dests := h.dests + {dest})
  {
  }

  lemma RecordOwn(h: History, typ: MsgType, num: nat, bytes: string, dest: Port)
    requires typ == Err || typ == Bye
    ensures Record(h, Sent(typ, num, bytes, dest))
         == h.(kinds := h.kinds + [typ], numbers := h.numbers + [num], dests := h.dests + {dest})
  {
  }

  lemma RecordUser(h: History, typ: MsgType, num: nat, bytes: string, dest: Port)
    requires IsUserType(typ)
    ensures var r := Record(h, Sent(typ, num, bytes, dest));
      && r.kinds == h.kinds + [typ] && r.numbers == h.numbers + [num] && r.users == h.users + [ToId(num)]
      && r.last == bytes && r.faithful == h.faithful
      && r.confirms == h.confirms && r.replies == h.replies && r.shown == h.shown && r.lines == h.lines
      && r.requests == (if typ in {Auth, Join} then h.requests + [ToId(num)] else h.requests)
      && r.auths == (if typ == Auth then h.auths + [ToId(num)] else h.auths)
      && r.chats == (if typ == Auth then h.chats else h.chats + [ToId(num)])
      && r.wait == (if h.wait.Free? then Outstanding(ToId(num)) else Violated)
      && r.dests == h.dests + {dest}
  {
  }

  lemma RecordConsole(h: History, line: Shown)
    ensures Record(h, Console(line)) == if line.typ == Msg then h.(shown := h.shown + [line.id]) else h
  {
  }

  lemma RecordPrinted(h: History, id: Id, ref: Id, text: string)
    ensures Record(h, Printed(id, ref, text)) == h.(replies := h.replies + [id])
  {
  }

  // ---------- steps ----------

  function Emit(s: Session, o: Obs): (r: Session)
    ensures Summary(r.log) == Record(Summary(s.log), o)
  {
    assert (s.log + [o])[..|s.log|] == s.log;
    s.(log := s.log + [o])
  }

  function Send(s: Session, typ: MsgType, num: nat, bytes: string): Session {
    Emit(s, Sent(typ, num, bytes, s.destPort))
  }

  function SendConfirm(s: Session, id: Id): Session {
    Send(s, Confirm, id, ConfirmBytes(id))
  }

  function Show(s: Session, lines: seq<Shown>): Session {
    if lines == [] then s else Emit(s, Console(lines[0]))
  }

  /** Entry of exit_program: BYE carries the current counter. */
  function Leave(s: Session, bye: bool, code: int): Session {
    if bye then Send(s, Bye, s.counter, ByeBytes(ToId(s.counter))).(mode := Leaving(code, 0))
    else s.(mode := Exited(code))
  }

  /** send_error_exit: ERR, then BYE under the next number. */
  function ErrorExit(s: Session): Session {
    var t := Send(s, Err, s.counter, ErrBytes(ToId(s.counter), s.dname));
    Leave(t.(counter := s.counter + 1, confirmPending := true), true, EXIT_FAILURE)
  }

  function TakeConfirm(s: Session, ref: Id): Session {
    if s.confirmIds != [] && s.confirmIds[0] == ref then
      s.(confirmIds := s.confirmIds[1..], confirmPending := false)
    else s
  }

  predicate Answers(s: Session, m: Inbound) {
    s.replyPending && s.replyIds != [] && s.replyIds[0] == m.ref
  }

  function TakeReply(s: Session, m: Inbound): Session {
    if Answers(s, m) then
      Emit(s.(replyIds := s.replyIds[1..], replyPending := false), Printed(m.id, m.ref, m.text))
    else s
  }

  /** The one-shot switch to the port that the last accepted datagram came from. */
  function SwitchPort(s: Session): Session {
    if s.replyPending && s.portOpen then s.(destPort := s.serverPort, portOpen := false) else s
  }

  /** A REPLY in the authentication state, up to its confirmation. */
  function TakeAuthReply(s: Session, m: Inbound): Session {
    var t := TakeReply(SwitchPort(s), m);
    if Answers(s, m) && m.typ == ReplyOk then t.(fsm := OpenState) else t
  }

  function HandleAuth(s: Session, m: Inbound): Session {
    match m.typ
    case Confirm => TakeConfirm(s, m.ref)
    case ReplyOk => SendConfirm(TakeAuthReply(s.(seen := s.seen + [m.id]), m), m.id)
    case ReplyNok => SendConfirm(TakeAuthReply(s.(seen := s.seen + [m.id]), m), m.id)
    case Err => Leave(SendConfirm(s, m.id), true, EXIT_FAILURE)
    case Msg => ErrorExit(SendConfirm(s, m.id))
    case _ => s
  }

  function HandleOpen(s: Session, m: Inbound, p: Packet): Session {
    match m.typ
    case Err => Leave(SendConfirm(Show(s, BodyShows(m, p)), m.id), true, EXIT_FAILURE)
    case Bye => Leave(SendConfirm(s, m.id), false, EXIT_FAILURE)
    case Confirm => TakeConfirm(s, m.ref)
    case ReplyOk => SendConfirm(TakeReply(s.(seen := s.seen + [m.id]), m), m.id)
    case ReplyNok => SendConfirm(TakeReply(s.(seen := s.seen + [m.id]), m), m.id)
    case Msg => SendConfirm(s.(seen := s.seen + [m.id]), m.id)
    case _ => ErrorExit(SendConfirm(s, ToId(s.counter)))
  }

  /** fsm_logic_handler once the message is decoded. */
  function Dispatch(s: Session, m: Inbound, p: Packet): Session {
    match s.fsm
    case StartState => if m.typ != ToBeDecided then Leave(s, true, EXIT_FAILURE) else s
    case AuthState => HandleAuth(s, m)
    case OpenState => HandleOpen(s, m, p)
  }

  /** fsm_logic_handler on a message whose header is m. */
  function Handle(s: Session, m: Inbound, p: Packet, repeated: bool): Session {
    if repeated then s else Dispatch(Show(s, BodyShows(m, p)), Body(m, p), p)
  }

  /** The checks of the poll loop on a datagram before it reaches fsm_logic_handler. */
  function Receive(s: Session, p: Packet): Session {
    var m := Header(p);
    if IsRepeat(p, s.seen) then s
    else if m.typ == Err then Leave(SendConfirm(Show(s, BodyShows(m, p)), m.id), true, EXIT_FAILURE)
    else if m.typ == InvalidMsg then ErrorExit(SendConfirm(s, ToId(s.counter)))
    else if s.fsm == StartState || (s.fsm == AuthState && (m.typ == Bye || m.typ == Msg)) then
      ErrorExit(SendConfirm(s, m.id))
    else Handle(s, m, p, false)
  }

  /** First transmission of a user message; the retransmission loop takes over. */
  function Transmit(s: Session, typ: MsgType, num: nat, bytes: string): Session {
    Send(s.(confirmIds := s.confirmIds + [ToId(num)], confirmPending := true), typ, num, bytes)
      .(mode := Waiting(ToId(num), bytes, 0))
  }

  function Request(s: Session, typ: MsgType, num: nat, bytes: string): Session {
    Transmit(s.(replyIds := s.replyIds + [ToId(num)], replyPending := true), typ, num, bytes)
  }

  /** A message that is ready to be sent, by the state of the session. */
  function Deliver(t: Session, typ: MsgType, num: nat, bytes: string): Session {
    match t.fsm
    case StartState => if typ == Auth then Request(t.(fsm := AuthState), Auth, num, bytes) else t
    case AuthState => if typ == Auth then Request(t, Auth, num, bytes) else t
    case OpenState =>
      if typ == Join then Request(t, Join, num, bytes)
      else if typ == Auth then t
      else Transmit(t, typ, num, bytes)
  }

  /** A parsed user message: o is the outcome of parsing, bytes the encoded message. */
  function Submit(s: Session, o: Outcome, bytes: string): Session {
    var num := s.counter;
    var t := s.(dname := if o.typ == Auth || o.typ == Rename then o.name else s.dname,
                counter := if o.ready then num + 1 else num);
    if o.ready then Deliver(t, o.typ, num, bytes) else t
  }

  /** A line of user input. */
  function UserInput(s: Session, line: string): Session {
    var o := Grammar(line, s.dname);
    Submit(s, o, UdpEncode(o, ToId(s.counter), line))
  }

  /** A POLLIN of the socket in the poll loop. */
  function SocketStep(s: Session, recv: Recv): Session {
    match recv
    case TimedOut => s
    case RecvFailed => Leave(s, false, EXIT_FAILURE)
    case Datagram(packet, port) => Receive(Emit(s.(serverPort := port), Got(packet, port)), packet)
  }

  function StepPolling(s: Session, e: Turn): Session {
    match e.poll
    case PollFailed => Leave(s, false, EXIT_FAILURE)
    case Revents(socket, stdin) =>
      var t := if Gated(s) then s else s.(stdinReady := stdin);
      if socket then
        SocketStep(t, e.recv)
      else if t.stdinReady then
        match e.stdin
        case Eof => Leave(t, true, EXIT_FAILURE)
        case Line(text) => if text == "" then t else UserInput(Emit(t, Read(text)), text)
      else t
  }

  function StepWaiting(s: Session, e: Turn, max: nat): Session
    requires s.mode.Waiting?
  {
    match e.recv
    case TimedOut =>
      if s.mode.retries == max then Leave(s, true, EXIT_FAILURE)
      else Emit(s, Resent(s.mode.bytes, s.destPort)).(mode := s.mode.(retries := s.mode.retries + 1))
    case RecvFailed => s.(mode := Polling)
    case Datagram(packet, port) =>
      var t := Emit(s, Got(packet, port));
      if s.confirmPending && IsConfirm(packet, s.mode.id) then t.(confirmPending := false, mode := Polling)
      else Handle(t, Header(packet), packet, IsRepeat(packet, s.seen))
  }

  function StepLeaving(s: Session, e: Turn, max: nat): Session
    requires s.mode.Leaving?
  {
    match e.recv
    case TimedOut =>
      if s.mode.tries == max then s.(mode := Exited(s.mode.code))
      else s.(mode := s.mode.(tries := s.mode.tries + 1))
    case RecvFailed => s.(mode := Exited(s.mode.code))
    case Datagram(packet, port) =>
      if IsConfirm(packet, s.counter) then Emit(s, Got(packet, port)).(mode := Exited(s.mode.code))
      else Emit(s, Got(packet, port))
  }

  function Step(s: Session, e: Turn, max: nat): Session {
    match s.mode
    case Polling => StepPolling(s, e)
    case Waiting(_, _, _) => StepWaiting(s, e, max)
    case Leaving(_, _) => StepLeaving(s, e, max)
    case Exited(_) => s
  }

  /** The session after turns i to j of a script. */
  function Run(s: Session, script: seq<Turn>, max: nat, i: nat, j: nat): Session
    requires i <= j <= |script|
    decreases j - i
  {
    if i == j then s else Step(Run(s, script, max, i, j - 1), script[j - 1], max)
  }

  lemma {:induction false} RunSplit(s: Session, script: seq<Turn>, max: nat, i: nat, k: nat, j: nat)
    requires i <= k <= j <= |script|
    ensures Run(s, script, max, i, j) == Run(Run(s, script, max, i, k), script, max, k, j)
    decreases j - k
  {
    hide Step;
    if k < j {
      RunSplit(s, script, max, i, k, j - 1);
    }
  }

  lemma RunNone(s: Session, script: seq<Turn>, max: nat, i: nat)
    requires i <= |script|
    ensures Run(s, script, max, i, i) == s
  {
  }

  /** A turn belongs to one of the three loops. */
  lemma StepCases(s: Session, e: Turn, max: nat)
    ensures s.mode.Polling? ==> Step(s, e, max) == StepPolling(s, e)
    ensures s.mode.Waiting? ==> Step(s, e, max) == StepWaiting(s, e, max)
    ensures s.mode.Leaving? ==> Step(s, e, max) == StepLeaving(s, e, max)
    ensures s.mode.Waiting? && e.recv.RecvFailed? ==> Step(s, e, max) == s.(mode := Polling)
  {
  }

  lemma RunStep(s: Session, script: seq<Turn>, max: nat, i: nat, p: nat, j: nat)
    requires i <= p < j <= |script|
    ensures Run(s, script, max, i, j) == Run(Step(Run(s, script, max, i, p), script[p], max), script, max, p + 1, j)
  {
    hide Step;
    RunSplit(s, script, max, i, p + 1, j);
  }
}
