/** What the TCP client does in every iteration: its answer to each kind of line of the server in each state,
    to the end of the stream and of the input, and to each kind of line of the user. */
module TcpAnswers {
  import opened Chat
  import opened UserLine
  import opened TcpWire
  import opened TcpSession
  import opened TcpTheorems
  import opened TcpLines
  import opened TcpDelivery
  import opened TcpCases

  /** Ended with the code of a failure after sending BYE. */
  function SaidBye(t: Session): Session {
    t.(log := t.log + [Sent(Bye, BYE_LINE, t.fsm)], mode := Ended(EXIT_FAILURE))
  }

  /** The same after an ERR with the given text. */
  function Complained(t: Session, text: string): Session {
    SaidBye(t.(log := t.log + [Sent(Err, TextLine("ERR", t.dname, text), t.fsm)]))
  }

  /** The session in which a received line is looked at. */
  function Heard(s: Session, e: Turn, f: string, rest: string, shown: seq<Shown>): Session {
    var t := Polled(s, e).(stream := rest, log := s.log + [Got(f)]);
    if shown == [] then t else t.(log := s.log + [Got(f), Console(shown[0])])
  }

  /** The REPLY to the pending request. */
  function Replied(t: Session, typ: MsgType, text: string): Session {
    t.(log := t.log + [Printed(text)], replyPending := false, fsm := if typ == ReplyOk then OpenState else t.fsm)
  }

  /** The answer to a decoded line, by state. */
  function Answer(t: Session, typ: MsgType, text: string, stdin: Stdin): Session {
    if t.fsm == StartState || (t.fsm == AuthState && typ in {Bye, Msg, InvalidMsg}) then Complained(t, ERR_TEXT)
    else match typ
      case Err => SaidBye(t)
      case ReplyOk => AfterReply(t, typ, text, stdin)
      case ReplyNok => AfterReply(t, typ, text, stdin)
      case Bye => t.(mode := Ended(EXIT_SUCCESS))
      case Msg => t
      case _ => Complained(t, OPEN_ERR_TEXT)
  }

  function AfterReply(t: Session, typ: MsgType, text: string, stdin: Stdin): Session {
    if !t.replyPending then ReadStdin(t, stdin)
    else if t.fsm == OpenState then ReadStdin(Replied(t, typ, text), stdin)
    else Replied(t, typ, text)
  }

  lemma ExitsSay(t: Session, text: string)
    ensures Leave(t, true, EXIT_FAILURE) == SaidBye(t) && ErrorExit(t, text) == Complained(t, text)
    ensures Leave(t, false, EXIT_FAILURE) == t.(mode := Ended(EXIT_FAILURE))
    ensures Leave(t, false, EXIT_SUCCESS) == t.(mode := Ended(EXIT_SUCCESS))
  {
    hide Summary, Record, TextLine;
  }

  lemma ReplyTaken(t: Session, typ: MsgType, text: string)
    requires t.replyPending
    ensures typ == ReplyOk ==> TakeReply(t, text).(fsm := OpenState) == Replied(t, typ, text)
    ensures typ == ReplyNok || t.fsm == OpenState ==> TakeReply(t, text) == Replied(t, typ, text)
  {
    hide Summary, Record;
  }

  lemma DispatchAnswers(t: Session, typ: MsgType, text: string, stdin: Stdin)
    requires typ in {Bye, ReplyOk, ReplyNok, Err, Msg, InvalidMsg}
    ensures var r := Dispatch(t, typ, text);
      (if r.goesOn then ReadStdin(r.s, stdin) else r.s) == Answer(t, typ, text, stdin)
  {
    hide Summary, Record, Leave, ErrorExit, SaidBye, Complained, ReadStdin, TakeReply, Replied;
    ExitsSay(t, ERR_TEXT);
    ExitsSay(t, OPEN_ERR_TEXT);
    NotPending(t, text);
    if t.replyPending {
      ReplyTaken(t, typ, text);
    }
  }

  lemma NotPending(t: Session, text: string)
    ensures !t.replyPending ==> TakeReply(t, text) == t
  {
  }

  lemma HeardIs(s: Session, e: Turn, f: string, rest: string, shown: seq<Shown>)
    ensures Heard(s, e, f, rest, shown) == Show(Emit(Polled(s, e).(stream := rest), Got(f)), shown)
  {
    hide Summary, Record;
    if shown != [] {
      assert s.log + [Got(f)] + [Console(shown[0])] == s.log + [Got(f), Console(shown[0])];
    }
  }

  lemma NextReceived(s: Session, n: nat)
    requires IsNext(s.stream, n)
    ensures var f := s.stream[..n];
      var t := Emit(s.(stream := s.stream[n..]), Got(f));
      Receive(s) == match TcpDecode(f)
                    case OutOfRange => Next(t.(mode := Aborted), false)
                    case Decoded(typ, text, shown) => Dispatch(Show(t, shown), typ, text)
  {
    NextFrameIs(s.stream, n);
    hide NextFrame, IsNext, TcpDecode, Dispatch, Summary, Record;
  }

  /** A POLLIN with n bytes to take from the stream, a line or a full buffer: before the user is authenticated
      everything but the REPLY to the pending AUTH, and an ERR once an AUTH was sent, is answered with ERR and
      BYE; in the open state an invalid line is; an ERR is answered with BYE, a BYE with nothing. A REPLY that
      nothing waits for is ignored, and the iteration goes on to standard input. What cannot be decoded, which
      is never a line, aborts the program. */
  lemma LineAnswered(s: Session, e: Turn, n: nat)
    requires s.mode.Chatting? && e.poll.Revents? && e.poll.socket && IsNext(s.stream, n)
    ensures var f, rest := s.stream[..n], s.stream[n..];
      var d := TcpDecode(f);
      && (EndsCrlf(f) ==> d.Decoded?)
      && Step(s, e) ==
           if d.Decoded? then Answer(Heard(s, e, f, rest, d.shown), d.typ, d.text, e.stdin)
           else Heard(s, e, f, rest, []).(mode := Aborted)
  {
    var f, rest := s.stream[..n], s.stream[n..];
    NextReceived(Polled(s, e), n);
    InboundTotal(f);
    var d := TcpDecode(f);
    hide Summary, Record, TcpDecode, IsNext, Receive, Dispatch, ReadStdin, Answer, Heard, Show, EndsCrlf;
    HeardIs(s, e, f, rest, []);
    ShowsNothing(Emit(Polled(s, e).(stream := rest), Got(f)));
    if d.Decoded? {
      HeardIs(s, e, f, rest, d.shown);
      DispatchAnswers(Heard(s, e, f, rest, d.shown), d.typ, d.text, e.stdin);
    }
  }

  lemma ShowsNothing(t: Session)
    ensures Show(t, []) == t
  {
  }

  lemma ServerFrame(keyword: string, preposition: string, name: string, verb: string, content: string)
    requires Upper(keyword) == "MSG" && Upper(preposition) == "FROM" && Upper(verb) == "IS"
    requires PlainName(name) && PlainText(content) && |name| + |content| + 15 <= BUFFER_SIZE
    ensures IsFrame(ServerLine(keyword, preposition, name, verb, content))
  {
    CaseNoBreak(keyword);
    CaseNoBreak(preposition);
    CaseNoBreak(verb);
    PlainNoBreak(name);
    PlainNoBreak(content);
    var a := keyword + " " + preposition + " ";
    var b := a + name + " ";
    NoBreakJoin(keyword, " ");
    NoBreakJoin(keyword + " ", preposition);
    NoBreakJoin(keyword + " " + preposition, " ");
    NoBreakJoin(a, name);
    NoBreakJoin(a + name, " ");
    NoBreakJoin(b, verb);
    NoBreakJoin(b + verb, " ");
    NoBreakJoin(b + verb + " ", content);
    FrameOf(b + verb + " " + content);
    ServerSplit(keyword, preposition, name, verb, content);
    hide IsFrame, ServerLine;
    assert b + verb + " " + content + CRLF == b + (verb + (" " + (content + CRLF)));
  }

  lemma CaseNoBreak(w: string)
    requires Upper(w) in {"MSG", "FROM", "IS"}
    ensures NoBreak(w)
  {
    assert forall k | 0 <= k < |w| :: UpperChar(w[k]) == Upper(w)[k];
    assert forall k | 0 <= k < |w| :: 'A' <= Upper(w)[k] <= 'Z';
  }

  /** A chat message before the open state, in any letter case, is shown, answered with ERR and BYE, and ends the
      program with failure. */
  lemma ChatBeforeOpen(s: Session, e: Turn, keyword: string, preposition: string, name: string, verb: string,
                       content: string, rest: string)
    requires s.mode.Chatting? && s.fsm != OpenState && e.poll.Revents? && e.poll.socket
    requires Upper(keyword) == "MSG" && Upper(preposition) == "FROM" && Upper(verb) == "IS"
    requires PlainName(name) && PlainText(content) && |name| + |content| + 15 <= BUFFER_SIZE && !ContainsIs(name)
    requires s.stream == ServerLine(keyword, preposition, name, verb, content) + rest
    ensures var f := ServerLine(keyword, preposition, name, verb, content);
      Step(s, e) == s.(
        stdinReady := if s.replyPending then s.stdinReady else e.poll.stdin, stream := rest,
        log := s.log + [Got(f), Console(Shown(Msg, 0, name, content)),
                        Sent(Err, TextLine("ERR", s.dname, ERR_TEXT), s.fsm), Sent(Bye, BYE_LINE, s.fsm)],
        mode := Ended(EXIT_FAILURE))
  {
    hide Summary, Record, ServerLine, TcpDecode, IsFrame, Step, TextLine, PlainName, PlainText, ContainsIs, Upper;
    var f := ServerLine(keyword, preposition, name, verb, content);
    ServerFrame(keyword, preposition, name, verb, content);
    TextAnyCase(Msg, keyword, preposition, name, verb, content);
    FirstFrame(f, rest);
    NextFrameIs(s.stream, |f|);
    hide IsNext, NextFrame;
    LineAnswered(s, e, |f|);
    var c, r, b := Console(Shown(Msg, 0, name, content)), Sent(Err, TextLine("ERR", s.dname, ERR_TEXT), s.fsm),
                   Sent(Bye, BYE_LINE, s.fsm);
    assert s.log + [Got(f), c] + [r] + [b] == s.log + [Got(f), c, r, b];
  }

  // ---------- iterations without a line of the server ----------

  /** poll fails, or the connection closes before another line is complete: the program ends with failure and
      sends nothing. */
  lemma ClosedTurn(s: Session, e: Turn)
    requires s.mode.Chatting?
    ensures e.poll.PollFailed? ==> Step(s, e) == s.(mode := Ended(EXIT_FAILURE))
    ensures e.poll.Revents? && e.poll.socket && (forall n :: !IsNext(s.stream, n)) ==>
      Step(s, e) == Polled(s, e).(stream := "", mode := Ended(EXIT_FAILURE))
  {
    hide Summary, Record, ReadStdin;
    ExitsSay(s, "");
    ExitsSay(Polled(s, e).(stream := ""), "");
    if forall n :: !IsNext(s.stream, n) {
      NoFrame(s.stream);
    }
  }

  lemma NoFrame(stream: string)
    requires forall n :: !IsNext(stream, n)
    ensures NextFrame(stream) == None
  {
    if NextFrame(stream).Some? {
      NextFrameIs(stream, NextFrame(stream).value);
    }
  }

  /** Standard input, when its bit is set: its end sends BYE and ends the program with failure; an empty line does
      nothing; a line that is not sent changes at most the name. */
  lemma StdinTurn(s: Session, stdin: Stdin)
    ensures !s.stdinReady || stdin == Line("") ==> ReadStdin(s, stdin) == s
    ensures s.stdinReady && stdin.Eof? ==> ReadStdin(s, stdin) == SaidBye(s)
    ensures s.stdinReady && stdin.Line? && stdin.text != "" && !Sends(s, Grammar(stdin.text, s.dname)) ==>
      ReadStdin(s, stdin) == s.(log := s.log + [Read(stdin.text)], dname := Named(stdin.text, s.dname))
  {
    hide Summary, Record, SaidBye, Grammar, TcpEncode, Named, Leave, Submit;
    ExitsSay(s, "");
    if stdin.Line? {
      var t := Emit(s, Read(stdin.text));
      var o := Grammar(stdin.text, s.dname);
      GrammarNamed(stdin.text, s.dname);
      Refused(t, o, TcpEncode(o, stdin.text));
    }
  }

  lemma Refused(s: Session, o: Outcome, bytes: string)
    ensures !Sends(s, o) ==>
      Submit(s, o, bytes) == s.(dname := if o.typ == Auth || o.typ == Rename then o.name else s.dname)
  {
    hide Summary, Record;
  }

  /** A line that is sent: a request waits for its REPLY, and an /auth leads to the authentication state. */
  lemma StdinSends(s: Session, stdin: Stdin)
    requires s.stdinReady && stdin.Line? && stdin.text != "" && Sends(s, Grammar(stdin.text, s.dname))
    ensures var o := Grammar(stdin.text, s.dname);
      var fsm := if o.typ == Auth then AuthState else OpenState;
      ReadStdin(s, stdin) == s.(
        log := s.log + [Read(stdin.text), Sent(o.typ, TcpEncode(o, stdin.text), fsm)],
        dname := Named(stdin.text, s.dname), fsm := fsm,
        replyPending := s.replyPending || o.typ == Auth || o.typ == Join)
  {
    hide Summary, Record, Grammar, TcpEncode, Named, Submit;
    var t := Emit(s, Read(stdin.text));
    var o := Grammar(stdin.text, s.dname);
    GrammarNamed(stdin.text, s.dname);
    GrammarReady(stdin.text, s.dname);
    Submitted(t, o, TcpEncode(o, stdin.text));
    var c := Sent(o.typ, TcpEncode(o, stdin.text), if o.typ == Auth then AuthState else OpenState);
    assert s.log + [Read(stdin.text)] + [c] == s.log + [Read(stdin.text), c];
  }

  lemma Submitted(s: Session, o: Outcome, bytes: string)
    requires Sends(s, o) && o.typ in {UserCmd, Auth, Join, Msg}
    ensures var fsm := if o.typ == Auth then AuthState else OpenState;
      Submit(s, o, bytes) == s.(
        log := s.log + [Sent(o.typ, bytes, fsm)], dname := if o.typ == Auth then o.name else s.dname, fsm := fsm,
        replyPending := s.replyPending || o.typ == Auth || o.typ == Join)
  {
    hide Summary, Record;
    if s.fsm == OpenState {
      if o.typ == Join { } else { }
    }
  }

  /** An iteration without POLLIN on the socket looks at standard input alone, whose bit only a poll with no reply
      pending refreshes; a session that has ended does nothing. */
  lemma QuietTurn(s: Session, e: Turn)
    ensures s.mode.Chatting? && e.poll.Revents? && !e.poll.socket ==>
      Step(s, e) == ReadStdin(if s.replyPending then s else s.(stdinReady := e.poll.stdin), e.stdin)
    ensures !s.mode.Chatting? ==> Step(s, e) == s
  {
    hide Summary, Record, ReadStdin, Receive;
  }
}
