/** What reaches the user for one line of the server, end to end: framing, decoding and the state machine. */
module TcpDelivery {
  import opened Chat
  import opened UserLine
  import opened TcpWire
  import opened TcpSession
  import opened TcpTheorems

  lemma PlainNoBreak(s: string)
    requires PlainText(s)
    ensures NoBreak(s)
  {
  }

  lemma TextFrame(keyword: string, name: string, content: string)
    requires keyword == "MSG" || keyword == "ERR"
    requires PlainName(name) && PlainText(content) && |name| + |content| + 15 <= BUFFER_SIZE
    ensures IsFrame(TextLine(keyword, name, content))
  {
    PlainNoBreak(name);
    PlainNoBreak(content);
    var h := keyword + " FROM ";
    NoBreakJoin(keyword, " FROM ");
    NoBreakJoin(h, name);
    NoBreakJoin(h + name, " IS ");
    NoBreakJoin(h + name + " IS ", content);
    FrameOf(h + name + " IS " + content);
    TextLineBody(keyword, name, content);
    hide IsFrame, TextLine;
  }

  /** One received line that decodes to d. */
  lemma LineReceived(s: Session, f: string, rest: string)
    requires s.stream == f + rest && IsFrame(f)
    ensures var d := TcpDecode(f);
      && d.Decoded?
      && Receive(s) == Dispatch(Show(Emit(s.(stream := rest), Got(f)), d.shown), d.typ, d.text)
  {
    InboundTotal(f);
    FirstFrame(f, rest);
    hide NextFrame, TcpDecode, Dispatch, Summary;
  }

  lemma OpenChat(s: Session, line: Shown)
    requires s.fsm == OpenState
    ensures Dispatch(Show(s, [line]), Msg, "") == Next(s.(log := s.log + [Console(line)]), false)
  {
    hide Summary, Record;
  }

  /** A chat message of the server is shown to an authenticated user with its exact name and text, wherever
      the frame boundaries of the connection fall, provided the name does not contain "is"; the iteration
      ends there, and the rest of the stream is left for the next one. */
  lemma ChatDelivered(s: Session, e: Turn, name: string, content: string, rest: string)
    requires s.mode.Chatting? && s.fsm == OpenState && e.poll.Revents? && e.poll.socket
    requires PlainName(name) && PlainText(content) && |name| + |content| + 15 <= BUFFER_SIZE
    requires !ContainsIs(name) && s.stream == TextLine("MSG", name, content) + rest
    ensures Step(s, e) == s.(
      stdinReady := if s.replyPending then s.stdinReady else e.poll.stdin,
      stream := rest,
      log := s.log + [Got(TextLine("MSG", name, content)), Console(Shown(Msg, 0, name, content))])
  {
    var f := TextLine("MSG", name, content);
    assert TcpEncode(Outcome(true, Msg, true, name, []), content) == f;
    hide TextLine, TcpDecode, TcpEncode, Receive, Dispatch, Show, IsFrame, Summary, Record, PlainName, PlainText,
      ContainsIs, ReadStdin;
    TextFrame("MSG", name, content);
    TextLineRoundTrip(Msg, name, content);
    var t := if s.replyPending then s else s.(stdinReady := e.poll.stdin);
    LineReceived(t, f, rest);
    OpenChat(Emit(t.(stream := rest), Got(f)), Shown(Msg, 0, name, content));
    var line := Console(Shown(Msg, 0, name, content));
    assert s.log + [Got(f)] + [line] == s.log + [Got(f), line];
  }

  lemma ReplyFrame(reply: string, result: string, verb: string, content: string)
    requires Upper(reply) == "REPLY" && Upper(verb) == "IS" && PlainText(content)
    requires Upper(result) == "OK" || Upper(result) == "NOK"
    requires |reply| + |result| + |verb| + |content| + 5 <= BUFFER_SIZE
    ensures IsFrame(ReplyLine(reply, result, verb, content))
  {
    UpperNoBreak(reply);
    UpperNoBreak(result);
    UpperNoBreak(verb);
    PlainNoBreak(content);
    var a := reply + " ";
    var b := a + result + " ";
    var c := b + verb + " ";
    NoBreakJoin(reply, " ");
    NoBreakJoin(a, result);
    NoBreakJoin(a + result, " ");
    NoBreakJoin(b, verb);
    NoBreakJoin(b + verb, " ");
    NoBreakJoin(c, content);
    FrameOf(c + content);
    ReplyLeft(reply, result, verb, content);
    hide IsFrame, ReplyLine;
  }

  lemma UpperNoBreak(w: string)
    requires Upper(w) in {"REPLY", "OK", "NOK", "IS"}
    ensures NoBreak(w)
  {
    assert forall k | 0 <= k < |w| :: UpperChar(w[k]) == Upper(w)[k];
    assert forall k | 0 <= k < |w| :: 'A' <= Upper(w)[k] <= 'Z';
  }

  lemma ReplyLeft(reply: string, result: string, verb: string, content: string)
    ensures ReplyLine(reply, result, verb, content) == reply + " " + result + " " + verb + " " + content + CRLF
  {
    var t := content + CRLF;
    var b := reply + " " + result + " ";
    assert b + verb + " " + content + CRLF == b + (verb + (" " + t));
    var u := verb + (" " + t);
    assert b + u == reply + (" " + (result + (" " + u)));
  }

  lemma ReplyReceived(s: Session, reply: string, result: string, verb: string, content: string, rest: string)
    requires s.mode.Chatting? && s.fsm != StartState && s.replyPending
    requires Upper(reply) == "REPLY" && Upper(verb) == "IS" && PlainText(content)
    requires Upper(result) == "OK" || Upper(result) == "NOK"
    requires |reply| + |result| + |verb| + |content| + 5 <= BUFFER_SIZE
    requires exists i | 0 <= i < |content| :: content[i] != ' '
    requires s.stream == ReplyLine(reply, result, verb, content) + rest
    ensures var ok := Upper(result) == "OK";
      Receive(s) == Next(s.(
        stream := rest, replyPending := false, fsm := if ok then OpenState else s.fsm,
        log := s.log + [Got(ReplyLine(reply, result, verb, content)),
                        Printed((if ok then "Success: " else "Failure: ") + content)]), s.fsm == OpenState)
  {
    hide ReplyLine, TcpDecode, Receive, IsFrame, Summary, PlainText, Upper;
    var f := ReplyLine(reply, result, verb, content);
    ReplyFrame(reply, result, verb, content);
    ReplyRoundTrip(reply, result, verb, content);
    LineReceived(s, f, rest);
    var o := Printed(TcpDecode(f).text);
    assert s.log + [Got(f)] + [o] == s.log + [Got(f), o];
  }

  /** The REPLY to the pending request is printed with its exact content, in whatever letter case the
      server writes the keywords; a positive one opens the session that waits for authentication. In the open
      state the same iteration goes on to standard input. */
  lemma ReplyDelivered(s: Session, e: Turn, reply: string, result: string, verb: string, content: string,
                       rest: string)
    requires s.mode.Chatting? && s.fsm != StartState && s.replyPending && e.poll.Revents? && e.poll.socket
    requires Upper(reply) == "REPLY" && Upper(verb) == "IS" && PlainText(content)
    requires Upper(result) == "OK" || Upper(result) == "NOK"
    requires |reply| + |result| + |verb| + |content| + 5 <= BUFFER_SIZE
    requires exists i | 0 <= i < |content| :: content[i] != ' '
    requires s.stream == ReplyLine(reply, result, verb, content) + rest
    ensures var ok := Upper(result) == "OK";
      var t := s.(
        stream := rest, replyPending := false, fsm := if ok then OpenState else s.fsm,
        log := s.log + [Got(ReplyLine(reply, result, verb, content)),
                        Printed((if ok then "Success: " else "Failure: ") + content)]);
      Step(s, e) == if s.fsm == OpenState then ReadStdin(t, e.stdin) else t
  {
    hide ReplyLine, Receive, ReadStdin, Summary, Upper, PlainText;
    ReplyReceived(s, reply, result, verb, content, rest);
  }

  lemma LastErr(s: Session, line: Shown)
    requires s.fsm != StartState
    ensures Dispatch(Show(s, [line]), Err, "")
         == Next(s.(log := s.log + [Console(line), Sent(Bye, BYE_LINE, s.fsm)], mode := Ended(EXIT_FAILURE)), false)
  {
    hide Summary, Record;
    var bye := Sent(Bye, BYE_LINE, s.fsm);
    assert s.log + [Console(line)] + [bye] == s.log + [Console(line), bye];
  }

  lemma ErrReceived(s: Session, name: string, content: string, rest: string)
    requires s.mode.Chatting? && s.fsm != StartState
    requires PlainName(name) && PlainText(content) && |name| + |content| + 15 <= BUFFER_SIZE
    requires !ContainsIs(name) && s.stream == TextLine("ERR", name, content) + rest
    ensures Receive(s) == Next(s.(
      stream := rest, mode := Ended(EXIT_FAILURE),
      log := s.log + [Got(TextLine("ERR", name, content)), Console(Shown(Err, 0, name, content)),
                      Sent(Bye, BYE_LINE, s.fsm)]), false)
  {
    var f := TextLine("ERR", name, content);
    assert TcpEncode(Outcome(true, Err, true, name, []), content) == f;
    hide TextLine, TcpDecode, TcpEncode, Receive, Dispatch, Show, IsFrame, Summary, Record, PlainName, PlainText,
      ContainsIs;
    TextFrame("ERR", name, content);
    TextLineRoundTrip(Err, name, content);
    LineReceived(s, f, rest);
    var t, line, bye := Emit(s.(stream := rest), Got(f)), Shown(Err, 0, name, content), Sent(Bye, BYE_LINE, s.fsm);
    LastErr(t, line);
    assert s.log + [Got(f)] + [Console(line), bye] == s.log + [Got(f), Console(line), bye];
  }

  /** An ERR line of the server is shown with its exact name and text and answered with BYE, in the
      authentication and in the open state, and nothing else happens in that iteration. */
  lemma ErrEndsSession(s: Session, e: Turn, name: string, content: string, rest: string)
    requires s.mode.Chatting? && s.fsm != StartState && e.poll.Revents? && e.poll.socket
    requires PlainName(name) && PlainText(content) && |name| + |content| + 15 <= BUFFER_SIZE
    requires !ContainsIs(name) && s.stream == TextLine("ERR", name, content) + rest
    ensures Step(s, e) == s.(
      stdinReady := if s.replyPending then s.stdinReady else e.poll.stdin,
      stream := rest, mode := Ended(EXIT_FAILURE),
      log := s.log + [Got(TextLine("ERR", name, content)), Console(Shown(Err, 0, name, content)),
                      Sent(Bye, BYE_LINE, s.fsm)])
  {
    hide TextLine, Receive, ReadStdin, Summary, PlainName, PlainText, ContainsIs;
    ErrReceived(if s.replyPending then s else s.(stdinReady := e.poll.stdin), name, content, rest);
  }

  lemma ByeReceived(s: Session, rest: string)
    requires s.mode.Chatting? && s.stream == BYE_LINE + rest
    ensures !Receive(s).goesOn
    ensures Receive(s).s ==
      if s.fsm == OpenState then s.(stream := rest, mode := Ended(EXIT_SUCCESS), log := s.log + [Got(BYE_LINE)])
      else s.(stream := rest, mode := Ended(EXIT_FAILURE),
              log := s.log + [Got(BYE_LINE), Sent(Err, TextLine("ERR", s.dname, ERR_TEXT), s.fsm),
                              Sent(Bye, BYE_LINE, s.fsm)])
  {
    ByeDecoded();
    hide TextLine, TcpDecode, Receive, IsFrame, Summary, Record;
    LineReceived(s, BYE_LINE, rest);
    var err, bye := Sent(Err, TextLine("ERR", s.dname, ERR_TEXT), s.fsm), Sent(Bye, BYE_LINE, s.fsm);
    assert s.log + [Got(BYE_LINE)] + [err] + [bye] == s.log + [Got(BYE_LINE), err, bye];
  }

  /** BYE of the server ends an open session with success and without an answer; before that it is an
      error, reported with ERR and BYE. */
  lemma ByeEndsSession(s: Session, e: Turn, rest: string)
    requires s.mode.Chatting? && s.stream == BYE_LINE + rest && e.poll.Revents? && e.poll.socket
    ensures var t := s.(stdinReady := if s.replyPending then s.stdinReady else e.poll.stdin, stream := rest);
      Step(s, e) ==
        if s.fsm == OpenState then t.(mode := Ended(EXIT_SUCCESS), log := s.log + [Got(BYE_LINE)])
        else t.(mode := Ended(EXIT_FAILURE),
                log := s.log + [Got(BYE_LINE), Sent(Err, TextLine("ERR", s.dname, ERR_TEXT), s.fsm),
                                Sent(Bye, BYE_LINE, s.fsm)])
  {
    hide TextLine, Receive, ReadStdin, Summary;
    ByeReceived(if s.replyPending then s else s.(stdinReady := e.poll.stdin), rest);
  }

  lemma ByeDecoded()
    ensures IsFrame(BYE_LINE) && TcpDecode(BYE_LINE) == Decoded(Bye, "", [])
  {
    FrameOf("BYE");
    assert BYE_LINE == "BYE" + CRLF;
    FragmentsWord("BYE", CRLF);
    FragmentsEmpty(CRLF);
    assert Upper("BYE") == "BYE";
  }
}
