/** Concrete runs of the TCP client that show where the code falls short of its documentation. */
module TcpRuns {
  import opened Chat
  import opened UserLine
  import opened TcpWire
  import opened TcpSession
  import opened TcpTheorems
  import opened TcpLines
  import opened TcpDelivery

  function Typed(line: string): Turn {
    Turn(Revents(false, true), Line(line))
  }

  /** A wake-up of poll without POLLIN on the socket, with a line waiting on standard input. */
  function WakesUp(line: string): Turn {
    Turn(Revents(false, false), Line(line))
  }

  /** After a good /auth line the client waits for the reply, and the bit of standard input stays set. */
  lemma AuthTurn(stream: string, ready: bool, a: string)
    requires GoodAuth(Fragments(a)) && a != ""
    ensures var t := Step(Init(stream, ready), Typed(a));
      t.mode.Chatting? && t.fsm == AuthState && t.replyPending && t.stdinReady
  {
    hide Summary, Record, Fragments, ValidParam;
  }

  lemma SecondAuth(s: Session, a: string)
    requires s.mode.Chatting? && s.fsm == AuthState && s.replyPending && s.stdinReady
    requires GoodAuth(Fragments(a)) && a != ""
    ensures DoubleRequest(s, WakesUp(a))
  {
    hide Fragments, ValidParam;
  }

  /** Such a wake-up takes a second AUTH before the first has its reply, so requests and replies are no longer
      paired, whatever the server sends. */
  lemma StaleBitBreaksPairing(stream: string, ready: bool, a: string)
    requires GoodAuth(Fragments(a)) && a != ""
    ensures !PairedThroughout(Init(stream, ready), [Typed(a), WakesUp(a)], 2)
  {
    var s, script := Init(stream, ready), [Typed(a), WakesUp(a)];
    AuthTurn(stream, ready, a);
    SecondAuth(Step(s, script[0]), a);
    RequestPairing(stream, ready, script, 2);
    hide Step, Fragments, Summary, ValidParam, DoubleRequest, PairedThroughout;
    assert Run(s, script, 0, 0) == s;
    assert DoubleRequest(Run(s, script, 0, 1), script[1]);
  }

  /** A server that says BYE before the user has chosen a name is answered with an ERR that has no name, which
      is not a line of the grammar. */
  lemma NamelessErrSent(ready: bool, rest: string, stdin: bool)
    ensures var script := [Turn(Revents(true, stdin), Eof)];
      !AllWellFormed(Run(Init(BYE_LINE + rest, ready), script, 0, 1).log)
  {
    var s, script := Init(BYE_LINE + rest, ready), [Turn(Revents(true, stdin), Eof)];
    ByeDecoded();
    FirstFrame(BYE_LINE, rest);
    GrammarExact(BYE_LINE + rest, ready, script, 1);
    hide Step, Summary, AllWellFormed, TcpDecode, NextFrame, IsFrame;
    assert Run(s, script, 0, 0) == s;
    assert TooEarly(Run(s, script, 0, 0), script[0]);
  }

  /** An /auth typed in the open state is refused, but its display name is taken. */
  lemma RefusedAuthRenames(s: Session, a: string)
    requires s.mode.Chatting? && s.fsm == OpenState && !s.replyPending && GoodAuth(Fragments(a)) && a != ""
    ensures Step(s, Typed(a)) == s.(stdinReady := true, dname := Fragments(a)[3], log := s.log + [Read(a)])
  {
    hide Summary, Record, Fragments, ValidParam;
  }

  /** A blank line typed in the open state is sent as an empty text. */
  lemma BlankLineSent(s: Session)
    requires s.mode.Chatting? && s.fsm == OpenState && !s.replyPending
    ensures Step(s, Typed(" ")).log == s.log + [Read(" "), Sent(UserCmd, "", OpenState)]
  {
    assert Fragments(" ") == [];
    hide Summary, Record, Fragments, ValidParam;
    assert s.log + [Read(" ")] + [Sent(UserCmd, "", OpenState)] == s.log + [Read(" "), Sent(UserCmd, "", OpenState)];
  }
}
