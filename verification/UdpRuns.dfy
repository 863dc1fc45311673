/** Concrete runs of the UDP client that show where the code falls short of its documentation. */
module UdpRuns {
  import opened Chat
  import opened UserLine
  import opened UdpWire
  import opened UdpSession
  import opened UdpInvariants
  import opened UdpTurns
  import opened UdpTheorems
  import opened UdpStopAndWait
  import opened UdpLimits
  import opened UdpDelivery
  import opened UdpMemory
  import opened UdpLines

  function Typed(line: string): Turn {
    Turn(Revents(false, true), TimedOut, Line(line))
  }

  function Arrives(p: Packet, port: Port): Turn {
    Turn(Revents(true, false), Datagram(p, port), Eof)
  }

  /** After a good /auth line the client waits for the confirmation of message 0. */
  lemma AuthTurn(dest: Port, ready: bool, a: string, max: nat)
    requires GoodAuth(Fragments(a)) && a != ""
    ensures var t := Step(Init(dest, ready), Typed(a), max);
      && t.mode.Waiting? && t.mode.id == 0 && t.mode.retries == 0 && t.fsm == AuthState
      && t.replyPending && t.confirmPending && t.portOpen && t.counter == 1 && t.seen == []
      && t.confirmIds == [0] && t.replyIds == [0] && t.serverPort == 0xFFFF
      && t.dname == Fragments(a)[3] && t.stdinReady && Summary(t.log).wait == Outstanding(0)
  {
    EmptySummary();
    hide Summary, UdpEncode, Fragments, ValidParam;
  }

  /** A server that answers the AUTH before its CONFIRM arrives moves the client to port 65535, whatever
      port the server answered from. */
  lemma EarlyReplyLosesServer(dest: Port, ready: bool, a: string, id: Id, port: Port, max: nat)
    requires GoodAuth(Fragments(a)) && a != ""
    ensures var p := ReplyPacket(id, true, 0, "k");
      && |p| == 8 && IsBytes(p)
      && var t := Run(Init(dest, ready), [Typed(a), Arrives(p, port)], max, 0, 2);
      t.fsm == OpenState && t.destPort == 0xFFFF
  {
    ReplyRoundTrip(id, true, 0, "k");
    AuthTurn(dest, ready, a, max);
    var s := Init(dest, ready);
    var script := [Typed(a), Arrives(ReplyPacket(id, true, 0, "k"), port)];
    assert Run(s, script, max, 0, 0) == s;
    assert Run(s, script, max, 0, 1) == Step(s, script[0], max);
    ReplyTurn(Run(s, script, max, 0, 1), ReplyPacket(id, true, 0, "k"), port, max);
  }

  /** The answer to the oldest pending AUTH, in either loop. */
  lemma ReplyTurn(s: Session, p: Packet, port: Port, max: nat)
    requires s.fsm == AuthState && s.replyPending && s.replyIds != [] && s.replyIds[0] == 0
    requires s.mode.Polling? || s.mode.Waiting?
    requires Header(p).typ == ReplyOk && Body(Header(p), p).typ == ReplyOk && BodyShows(Header(p), p) == []
    requires Body(Header(p), p).ref == 0 && Header(p).id !in s.seen
    ensures var t := Step(s, Arrives(p, port), max);
      && t.fsm == OpenState && t.mode == s.mode && !t.replyPending && t.confirmPending == s.confirmPending
      && t.destPort == (if !s.portOpen then s.destPort else if s.mode.Polling? then port else s.serverPort)
      && t.confirmIds == s.confirmIds && t.counter == s.counter && t.dname == s.dname
  {
    hide Summary, Record, Header, Body, BodyShows, ConfirmBytes, Step;
    PacketStep(s, Arrives(p, port), max);
    if s.mode.Polling? { } else { }
  }

  lemma ConfirmTurn(s: Session, id: Id, port: Port, max: nat)
    requires s.mode.Waiting? && s.mode.id == id && s.confirmPending
    requires |ConfirmBytes(id)| == 3 && IsBytes(ConfirmBytes(id))
    ensures Step(s, Arrives(ConfirmBytes(id), port), max)
         == Entry(s, Arrives(ConfirmBytes(id), port)).(confirmPending := false, mode := Polling)
  {
    ConfirmByeRoundTrip(id);
    hide Summary, Header;
  }

  lemma ChatLine(m: string, name: string)
    requires IsChat(Fragments(m))
    ensures Grammar(m, name).typ == Msg && Grammar(m, name).ready
  {
    hide Fragments, ValidParam;
  }

  /** A chat line typed in the open state while nothing is pending. */
  lemma ChatTurn(s: Session, m: string, max: nat)
    requires s.mode.Polling? && s.fsm == OpenState && !Gated(s)
    requires IsChat(Fragments(m)) && m != "" && s.counter < 0x1_0000
    ensures var t := Step(s, Typed(m), max);
      && t.mode.Waiting? && t.mode.id == s.counter && t.mode.retries == 0 && t.fsm == OpenState
      && t.confirmPending && t.confirmIds == s.confirmIds + [s.counter]
  {
    hide Summary, Record, UdpEncode, Fragments, ValidParam, Grammar;
    ChatLine(m, s.dname);
    StepCases(s, Typed(m), max);
  }

  /** A wake-up of poll without POLLIN on the socket, with a line waiting on standard input. */
  function WakesUp(line: string): Turn {
    Turn(Revents(false, false), TimedOut, Line(line))
  }

  lemma SecondAuth(s: Session, a: string)
    requires s.mode.Polling? && s.fsm == AuthState && s.replyPending && s.stdinReady
    requires GoodAuth(Fragments(a)) && a != ""
    ensures DoubleRequest(s, WakesUp(a))
  {
    hide Fragments, ValidParam;
  }

  /** The confirmation of the AUTH leads back to the poll loop and changes nothing else that matters here. */
  lemma ConfirmedAuth(s: Session, port: Port, max: nat)
    requires s.mode.Waiting? && s.mode.id == 0 && s.confirmPending && |ConfirmBytes(0)| == 3 && IsBytes(ConfirmBytes(0))
    ensures var t := Step(s, Arrives(ConfirmBytes(0), port), max);
      && t.mode.Polling? && t.fsm == s.fsm && t.replyPending == s.replyPending && t.stdinReady == s.stdinReady
      && t.portOpen == s.portOpen && t.replyIds == s.replyIds && t.seen == s.seen && t.counter == s.counter
      && t.confirmIds == s.confirmIds && !t.confirmPending
  {
    ConfirmTurn(s, 0, port, max);
    hide Step, ConfirmBytes, Summary;
  }

  /** Such a wake-up after the confirmation of an AUTH takes a second AUTH before the first has its reply,
      so requests and replies are no longer paired. */
  lemma StaleBitBreaksPairing(dest: Port, ready: bool, a: string, port: Port, max: nat)
    requires GoodAuth(Fragments(a)) && a != ""
    ensures var again := ConfirmBytes(0);
      && |again| == 3 && IsBytes(again)
      && !PairedThroughout(Init(dest, ready), [Typed(a), Arrives(again, port), WakesUp(a)], max, 3)
  {
    ConfirmByeRoundTrip(0);
    hide Step, Fragments, ConfirmBytes, Summary, ValidParam, GateInv, DoubleRequest, PairedThroughout;
    var again := ConfirmBytes(0);
    var s, script := Init(dest, ready), [Typed(a), Arrives(again, port), WakesUp(a)];
    AfterConfirm(dest, ready, script, a, port, max);
    SecondAuth(Run(s, script, max, 0, 2), a);
    RequestPairing(dest, ready, script, max, 3);
  }

  /** A failed receive of the retransmission loop followed by such a wake-up sends a message before the
      previous one was confirmed. */
  lemma FailedReceiveBreaksStopAndWait(dest: Port, ready: bool, a: string, max: nat)
    requires GoodAuth(Fragments(a)) && a != ""
    ensures var script := [Typed(a), Turn(PollFailed, RecvFailed, Eof), WakesUp(a)];
      !StopAndWait(Run(Init(dest, ready), script, max, 0, 3).log)
  {
    var s, script := Init(dest, ready), [Typed(a), Turn(PollFailed, RecvFailed, Eof), WakesUp(a)];
    AuthTurn(dest, ready, a, max);
    var s1 := Step(s, script[0], max);
    StepCases(s1, script[1], max);
    var s2 := Step(s1, script[1], max);
    StepCases(s2, script[2], max);
    LineDoes(s2, script[2]);
    MonitorDecides(Step(s2, script[2], max).log);
    hide Step, Fragments, Summary, ValidParam, StepPolling;
    assert Run(s, script, max, 0, 0) == s;
    assert Run(s, script, max, 0, 1) == s1;
    assert Run(s, script, max, 0, 2) == s2;
  }

  lemma ConfirmRead(id: Id)
    ensures var p := ConfirmBytes(id); |p| == 3 && IsBytes(p) && IsConfirm(p, id)
  {
    ConfirmByeRoundTrip(id);
  }

  lemma ReplyRead(id: Id, ok: bool, ref: Id)
    ensures var p := ReplyPacket(id, ok, ref, "k");
      && |p| == 8 && IsBytes(p) && BodyShows(Header(p), p) == []
      && var m, b := Header(p), Body(Header(p), p);
      && m.typ == ReplyOk && m.id == b.id == id && b.ref == ref && b.typ == if ok then ReplyOk else ReplyNok
  {
    ReplyRoundTrip(id, ok, ref, "k");
  }

  lemma FirstTurns(s: Session, script: seq<Turn>, max: nat)
    requires |script| == 4
    ensures Run(s, script, max, 0, 3) == Step(Run(s, script, max, 0, 2), script[2], max)
    ensures Run(s, script, max, 0, 4) == Step(Run(s, script, max, 0, 3), script[3], max)
  {
    hide Step;
  }

  /** The client after an AUTH and its CONFIRM. */
  lemma AfterConfirm(dest: Port, ready: bool, script: seq<Turn>, a: string, port: Port, max: nat)
    requires GoodAuth(Fragments(a)) && a != "" && |ConfirmBytes(0)| == 3 && IsBytes(ConfirmBytes(0))
    requires |script| >= 2 && script[0] == Typed(a) && script[1] == Arrives(ConfirmBytes(0), port)
    ensures var t := Run(Init(dest, ready), script, max, 0, 2);
      && t.mode.Polling? && t.fsm == AuthState && t.replyPending && t.stdinReady && t.portOpen
      && t.replyIds == [0] && t.seen == [] && t.counter == 1 && t.confirmIds == [0] && !t.confirmPending
  {
    hide Step, Fragments, ConfirmBytes, Summary, ValidParam;
    var s := Init(dest, ready);
    assert Run(s, script, max, 0, 0) == s;
    assert Run(s, script, max, 0, 1) == Step(s, script[0], max);
    AuthTurn(dest, ready, a, max);
    ConfirmedAuth(Run(s, script, max, 0, 1), port, max);
  }

  lemma SecondAuthTurn(s: Session, a: string, max: nat)
    requires s.mode.Polling? && s.fsm == AuthState && s.replyPending && s.stdinReady && s.counter == 1
    requires GoodAuth(Fragments(a)) && a != ""
    ensures var t := Step(s, WakesUp(a), max);
      && t.mode.Waiting? && t.fsm == AuthState && t.replyPending && t.replyIds == s.replyIds + [1]
      && t.seen == s.seen
  {
    hide Summary, Record, UdpEncode, Fragments, ValidParam;
    StepCases(s, WakesUp(a), max);
  }

  /** The client after a second AUTH, sent at such a wake-up. */
  lemma AfterSecondAuth(dest: Port, ready: bool, script: seq<Turn>, a: string, port: Port, max: nat)
    requires GoodAuth(Fragments(a)) && a != "" && |ConfirmBytes(0)| == 3 && IsBytes(ConfirmBytes(0))
    requires |script| >= 3 && script[0] == Typed(a) && script[1] == Arrives(ConfirmBytes(0), port)
    requires script[2] == WakesUp(a)
    ensures var t := Run(Init(dest, ready), script, max, 0, 3);
      t.mode.Waiting? && t.fsm == AuthState && t.replyPending && t.replyIds == [0, 1] && t.seen == []
  {
    AfterConfirm(dest, ready, script, a, port, max);
    hide Step, Fragments, GoodAuth, ConfirmBytes, Summary, IsBytes;
    var s := Init(dest, ready);
    assert Run(s, script, max, 0, 3) == Step(Run(s, script, max, 0, 2), script[2], max);
    SecondAuthTurn(Run(s, script, max, 0, 2), a, max);
  }

  lemma OlderReply(dest: Port, ready: bool, script: seq<Turn>, reply: Packet, port: Port, max: nat)
    requires |script| == 4 && script[3] == Arrives(reply, port)
    requires var t := Run(Init(dest, ready), script, max, 0, 3);
      t.mode.Waiting? && t.fsm == AuthState && t.replyPending && t.replyIds == [0, 1] && t.seen == []
    requires var m, b := Header(reply), Body(Header(reply), reply);
      m.typ == b.typ == ReplyOk && b.ref == 0 && BodyShows(m, reply) == []
    ensures var s := Init(dest, ready);
      Enters(s, script, max, 3) && !OpensBy(Run(s, script, max, 0, 3), script[3])
  {
    hide Step, Run, Header, Body, BodyShows, Summary, OpensBy, SingleRequests;
    ReplyTurn(Run(Init(dest, ready), script, max, 0, 3), reply, port, max);
    OpeningAuth(dest, ready, script, max, 3);
  }

  /** With that second AUTH, the REPLY to the first one opens the session: it is not the reply to the most
      recently sent AUTH. */
  lemma OlderAuthOpens(dest: Port, ready: bool, a: string, id: Id, port: Port, max: nat)
    requires GoodAuth(Fragments(a)) && a != ""
    ensures var again, reply := ConfirmBytes(0), ReplyPacket(id, true, 0, "k");
      && |again| == 3 && IsBytes(again) && |reply| == 8 && IsBytes(reply)
      && var s, script := Init(dest, ready), [Typed(a), Arrives(again, port), WakesUp(a), Arrives(reply, port)];
      Enters(s, script, max, 3) && !OpensBy(Run(s, script, max, 0, 3), script[3])
  {
    hide Enters, OpensBy, Run, Header, Body, BodyShows, Summary, Fragments, GoodAuth, ReplyPacket, ConfirmBytes;
    ConfirmRead(0);
    ReplyRead(id, true, 0);
    var again, reply := ConfirmBytes(0), ReplyPacket(id, true, 0, "k");
    var script := [Typed(a), Arrives(again, port), WakesUp(a), Arrives(reply, port)];
    AfterSecondAuth(dest, ready, script, a, port, max);
    OlderReply(dest, ready, script, reply, port, max);
  }

  /** A REPLY to some other request, received by the poll loop while the AUTH is pending. */
  lemma ForeignTurn(s: Session, p: Packet, port: Port, max: nat)
    requires s.mode.Polling? && s.fsm == AuthState && s.replyPending && s.portOpen && s.replyIds == [0]
    requires Header(p).typ == ReplyOk && Body(Header(p), p).typ in {ReplyOk, ReplyNok} && BodyShows(Header(p), p) == []
    requires Body(Header(p), p).ref != 0 && Body(Header(p), p).id == Header(p).id && Header(p).id !in s.seen
    ensures var t := Step(s, Arrives(p, port), max);
      && t.mode.Polling? && t.fsm == AuthState && t.replyPending && t.replyIds == [0]
      && !t.portOpen && t.destPort == port && t.seen == s.seen + [Header(p).id]
  {
    hide Summary, Record, Header, Body, BodyShows, ConfirmBytes, Step;
    PacketStep(s, Arrives(p, port), max);
  }

  /** A well-formed REPLY to a request that this client did not make. */
  predicate IsForeign(p: Packet) {
    Body(Header(p), p).typ in {ReplyOk, ReplyNok} && Body(Header(p), p).ref != 0
  }

  lemma ForeignThenTrue(dest: Port, ready: bool, script: seq<Turn>, other: Packet, from: Port, reply: Packet,
                        port: Port, max: nat)
    requires |script| == 4 && script[2] == Arrives(other, from) && script[3] == Arrives(reply, port)
    requires var t := Run(Init(dest, ready), script, max, 0, 2);
      && t.mode.Polling? && t.fsm == AuthState && t.replyPending && t.portOpen && t.replyIds == [0] && t.seen == []
    requires var m, b := Header(reply), Body(Header(reply), reply);
      m.typ == b.typ == ReplyOk && b.ref == 0 && BodyShows(m, reply) == []
    requires IsForeign(other) && Header(other).id != Header(reply).id
    ensures var t := Run(Init(dest, ready), script, max, 0, 4);
      t.fsm == OpenState && t.destPort == from
  {
    hide Step, Run, Header, Body, BodyShows, Summary;
    BodyKinds(other);
    FirstTurns(Init(dest, ready), script, max);
    ForeignTurn(Run(Init(dest, ready), script, max, 0, 2), other, from, max);
    ReplyTurn(Run(Init(dest, ready), script, max, 0, 3), reply, port, max);
  }

  /** Such a REPLY decides the port: the session that the true REPLY opens afterwards talks to the port that the
      foreign one came from, and not to its own. */
  lemma ForeignReplyTakesPort(dest: Port, ready: bool, a: string, other: Packet, from: Port, id: Id, port: Port,
                              max: nat)
    requires GoodAuth(Fragments(a)) && a != "" && IsForeign(other) && Header(other).id != id
    ensures var again, reply := ConfirmBytes(0), ReplyPacket(id, true, 0, "k");
      && |again| == 3 && IsBytes(again) && |reply| == 8 && IsBytes(reply)
      && var script := [Typed(a), Arrives(again, port), Arrives(other, from), Arrives(reply, port)];
      var t := Run(Init(dest, ready), script, max, 0, 4);
      t.fsm == OpenState && t.destPort == from
  {
    hide Step, Run, Header, Body, BodyShows, Summary, Fragments, GoodAuth, ReplyPacket, ConfirmBytes, IsForeign;
    ConfirmRead(0);
    ReplyRead(id, true, 0);
    var again, reply := ConfirmBytes(0), ReplyPacket(id, true, 0, "k");
    var script := [Typed(a), Arrives(again, port), Arrives(other, from), Arrives(reply, port)];
    AfterConfirm(dest, ready, script, a, port, max);
    ForeignThenTrue(dest, ready, script, other, from, reply, port, max);
  }

  /** The session of the run below: AUTH, its CONFIRM, its REPLY, a chat message, and then the CONFIRM of
      the AUTH once more. */
  function LateConfirm(a: string, m: string, reply: Packet, again: Packet, port: Port): seq<Turn> {
    [Typed(a), Arrives(again, port), Arrives(reply, port), Typed(m), Arrives(again, port)]
  }

  lemma LateConfirmTurns(a: string, m: string, reply: Packet, again: Packet, port: Port)
    ensures var script := LateConfirm(a, m, reply, again, port);
      && |script| == 5 && script[0] == Typed(a) && script[1] == script[4] == Arrives(again, port)
      && script[2] == Arrives(reply, port) && script[3] == Typed(m)
  {
  }

  lemma LastTurns(s: Session, script: seq<Turn>, max: nat)
    requires |script| == 5
    ensures Run(s, script, max, 0, 3) == Step(Run(s, script, max, 0, 2), script[2], max)
    ensures Run(s, script, max, 0, 4) == Step(Run(s, script, max, 0, 3), script[3], max)
    ensures Run(s, script, max, 0, 5) == Step(Run(s, script, max, 0, 4), script[4], max)
  {
    hide Step;
  }

  lemma ConfirmedAgain(s: Session, script: seq<Turn>, m: string, reply: Packet, again: Packet, port: Port, max: nat)
    requires |script| == 5 && script[2] == Arrives(reply, port)
    requires script[3] == Typed(m) && script[4] == Arrives(again, port)
    requires var t := Run(s, script, max, 0, 2);
      && t.mode.Polling? && t.fsm == AuthState && t.replyPending && t.replyIds == [0] && t.seen == []
      && t.counter == 1 && t.confirmIds == [0] && !t.confirmPending
    requires var m, b := Header(reply), Body(Header(reply), reply);
      m.typ == b.typ == ReplyOk && b.ref == 0 && BodyShows(m, reply) == []
    requires IsConfirm(again, 0) && IsChat(Fragments(m)) && m != ""
    ensures var t := Run(s, script, max, 0, 5);
      Wedged(t) && t.fsm == OpenState && t.mode.id == 1
  {
    hide Step, Run, Header, Body, BodyShows, Summary, Fragments, IsConfirm;
    LastTurns(s, script, max);
    ReplyTurn(Run(s, script, max, 0, 2), reply, port, max);
    ChatTurn(Run(s, script, max, 0, 3), m, max);
    StaleConfirmWedges(Run(s, script, max, 0, 4), script[4], max);
  }

  /** A single repeated CONFIRM ends an open session: the retransmission loop is wedged on message 1, and
      by WedgedForever even its own CONFIRM no longer releases it. */
  lemma RepeatedConfirmWedges(dest: Port, ready: bool, a: string, m: string, id: Id, port: Port, max: nat)
    requires GoodAuth(Fragments(a)) && a != "" && IsChat(Fragments(m)) && m != ""
    ensures var reply, again := ReplyPacket(id, true, 0, "k"), ConfirmBytes(0);
      && |reply| == 8 && IsBytes(reply) && |again| == 3 && IsBytes(again)
      && var t := Run(Init(dest, ready), LateConfirm(a, m, reply, again, port), max, 0, 5);
      Wedged(t) && t.fsm == OpenState && t.mode.id == 1
  {
    hide Step, Run, Header, Body, BodyShows, Summary, Fragments, GoodAuth, IsChat, ReplyPacket, ConfirmBytes, IsConfirm,
      LateConfirm, Wedged;
    ConfirmRead(0);
    ReplyRead(id, true, 0);
    var reply, again := ReplyPacket(id, true, 0, "k"), ConfirmBytes(0);
    var script := LateConfirm(a, m, reply, again, port);
    LateConfirmTurns(a, m, reply, again, port);
    AfterConfirm(dest, ready, script, a, port, max);
    ConfirmedAgain(Init(dest, ready), script, m, reply, again, port, max);
  }

  // ---------- ids that are forgotten ----------

  /** A BYE that arrives before the AUTH is confirmed is neither remembered nor answered, and the client goes on
      waiting. */
  lemma ByeForgotten(dest: Port, ready: bool, a: string, id: Id, port: Port, max: nat)
    requires GoodAuth(Fragments(a)) && a != ""
    ensures var bye := ByeBytes(id);
      && |bye| == 3 && IsBytes(bye)
      && var t := Run(Init(dest, ready), [Typed(a), Arrives(bye, port)], max, 0, 2);
      t.mode.Waiting? && t.seen == []
  {
    ByeRead(id);
    hide Step, Fragments, GoodAuth, ByeBytes, Header, Body, Summary;
    var s, script := Init(dest, ready), [Typed(a), Arrives(ByeBytes(id), port)];
    assert Run(s, script, max, 0, 0) == s;
    assert Run(s, script, max, 0, 1) == Step(s, script[0], max);
    AuthTurn(dest, ready, a, max);
    ByeIgnored(Run(s, script, max, 0, 1), ByeBytes(id), port, max);
  }

  lemma ByeRead(id: Id)
    ensures var p := ByeBytes(id); |p| == 3 && IsBytes(p) && Header(p).typ == Bye
  {
    ConfirmByeRoundTrip(id);
  }

  lemma ByeIgnored(s: Session, p: Packet, port: Port, max: nat)
    requires s.mode.Waiting? && s.fsm == AuthState && s.seen == [] && Header(p).typ == Bye
    ensures var t := Step(s, Arrives(p, port), max); t.mode.Waiting? && t.seen == []
  {
    BodyKinds(p);
    RememberedTurn(s, Arrives(p, port), max);
    hide Summary, Record, Header, Body, Step;
    PacketStep(s, Arrives(p, port), max);
    BodyShowsNothing(p);
  }

  lemma BodyShowsNothing(p: Packet)
    requires Header(p).typ in {Bye, ReplyOk}
    ensures BodyShows(Header(p), p) == []
  {
  }

  /** A REPLY of seven bytes, which has no content, is read, but neither remembered nor answered. */
  lemma ShortReplyForgotten(dest: Port, ready: bool, a: string, id: Id, ok: bool, port: Port, max: nat)
    requires GoodAuth(Fragments(a)) && a != ""
    ensures var again, reply := ConfirmBytes(0), ReplyPacket(id, ok, 0, "");
      && |again| == 3 && IsBytes(again) && |reply| == 7 && IsBytes(reply)
      && var t := Run(Init(dest, ready), [Typed(a), Arrives(again, port), Arrives(reply, port)], max, 0, 3);
      t.mode.Polling? && t.fsm == AuthState && t.replyPending && t.seen == []
  {
    ConfirmRead(0);
    ShortReplyRead(id, ok);
    hide Step, Run, Fragments, GoodAuth, ConfirmBytes, ReplyPacket, Header, Body, Summary;
    var again, reply := ConfirmBytes(0), ReplyPacket(id, ok, 0, "");
    var s, script := Init(dest, ready), [Typed(a), Arrives(again, port), Arrives(reply, port)];
    AfterConfirm(dest, ready, script, a, port, max);
    ThirdTurn(s, script, max);
    ShortReplyIgnored(Run(s, script, max, 0, 2), reply, port, max);
  }

  lemma ThirdTurn(s: Session, script: seq<Turn>, max: nat)
    requires |script| == 3
    ensures Run(s, script, max, 0, 3) == Step(Run(s, script, max, 0, 2), script[2], max)
  {
    hide Step;
  }

  lemma ShortReplyRead(id: Id, ok: bool)
    ensures var p := ReplyPacket(id, ok, 0, "");
      && |p| == 7 && IsBytes(p) && Header(p).typ == ReplyOk && Body(Header(p), p).typ == InvalidMsg
  {
    ReplyRoundTrip(id, ok, 0, "");
  }

  lemma ShortReplyIgnored(s: Session, p: Packet, port: Port, max: nat)
    requires s.mode.Polling? && s.fsm == AuthState && s.replyPending && s.seen == []
    requires Header(p).typ == ReplyOk && Body(Header(p), p).typ == InvalidMsg
    ensures var t := Step(s, Arrives(p, port), max);
      t.mode.Polling? && t.fsm == AuthState && t.replyPending && t.seen == []
  {
    BodyShowsNothing(p);
    hide Summary, Record, Header, Body, BodyShows, Step;
    PacketStep(s, Arrives(p, port), max);
  }

  // ---------- lines that do more or less than they should ----------

  /** An /auth typed in the open state is refused, but its display name is taken and a number is skipped. */
  lemma RefusedAuthRenames(s: Session, a: string, max: nat)
    requires s.mode.Polling? && s.fsm == OpenState && !Gated(s) && GoodAuth(Fragments(a)) && a != ""
    ensures Step(s, Typed(a), max)
         == s.(stdinReady := true, dname := Fragments(a)[3], counter := s.counter + 1, log := s.log + [Read(a)])
  {
    hide Summary, Record, UdpEncode, Fragments, ValidParam;
  }

  /** A blank line typed in the open state is sent, numbered, waited for and repeated as an empty datagram. */
  lemma BlankLineSent(s: Session, max: nat)
    requires s.mode.Polling? && s.fsm == OpenState && !Gated(s)
    ensures var t := Step(s, Typed(" "), max);
      && t.log == s.log + [Read(" "), Sent(UserCmd, s.counter, "", s.destPort)]
      && t.mode == Waiting(ToId(s.counter), "", 0)
  {
    assert Fragments(" ") == [];
    hide Summary, Record, Fragments, ValidParam, Step, IsBytes;
    LineSent(s, Typed(" "), max);
  }
}
