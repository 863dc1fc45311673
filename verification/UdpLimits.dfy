/** Bounds of the two waits, at-most-once delivery, numbering, and the exact
    condition under which the retransmission loop can be left. */
module UdpLimits {
  import opened Chat
  import opened UserLine
  import opened UdpWire
  import opened UdpSession
  import opened UdpInvariants
  import opened UdpGate
  import opened UdpTurns

  // ---------- at most once, numbering ----------

  /** At most once over whole runs, under any loss, repetition or reordering: no id is handled twice, no
      MSG is shown and no REPLY is printed twice, and the CONFIRMs sent are the handled ids in order. */
  lemma DeliveredOnce(dest: Port, ready: bool, script: seq<Turn>, max: nat, n: nat)
    requires n <= |script|
    ensures var t := Run(Init(dest, ready), script, max, 0, n);
      var h := Summary(t.log);
      && NoDup(t.seen) && NoDup(h.shown) && NoDup(h.replies)
      && (Running(t) ==> h.confirms == t.seen)
  {
    InitInv(dest, ready);
    RunInv(Init(dest, ready), script, max, 0, n);
  }

  lemma SpeechIsLanguage(s: Session)
    requires Speech(s)
    ensures Language(Summary(s.log).kinds)
  {
    hide Summary, Language, Talk, OnlyAuths;
    if Running(s) {
      SpeechTalks(s);
      TalkEnds(Summary(s.log).kinds);
    }
  }

  lemma DistinctIds(ns: seq<nat>, counter: nat)
    requires Increasing(ns) && (Below(ns, counter) || Below(ns, counter + 1))
    ensures counter < 0x1_0000 ==> forall i, j | 0 <= i < j < |ns| :: ToId(ns[i]) != ToId(ns[j])
  {
    if counter < 0x1_0000 {
      forall i, j | 0 <= i < j < |ns|
        ensures ToId(ns[i]) != ToId(ns[j])
      {
        assert ns[i] < ns[j] < 0x1_0000;
      }
    }
  }

  /** The client's own messages carry strictly increasing numbers, hence different ids while the counter
      fits into 16 bits; their types form a word of the language, so ERR is followed by BYE and BYE ends
      the session; every retransmission repeats the last user message byte for byte; and the queue of
      ids to be confirmed is always a suffix of the ids of the user messages sent. */
  lemma IdDiscipline(dest: Port, ready: bool, script: seq<Turn>, max: nat, n: nat)
    requires n <= |script|
    ensures var t := Run(Init(dest, ready), script, max, 0, n);
      var h := Summary(t.log);
      && Increasing(h.numbers) && Language(h.kinds) && h.faithful
      && IsSuffix(t.confirmIds, h.users)
      && (t.counter < 0x1_0000 ==> forall i, j | 0 <= i < j < |h.numbers| :: ToId(h.numbers[i]) != ToId(h.numbers[j]))
  {
    InitInv(dest, ready);
    RunInv(Init(dest, ready), script, max, 0, n);
    hide Run, Summary, Language, Talk, OnlyAuths, Increasing, Below, IsSuffix;
    var t := Run(Init(dest, ready), script, max, 0, n);
    SpeechIsLanguage(t);
    DistinctIds(Summary(t.log).numbers, t.counter);
  }

  /** The display name is always empty or 1 to 20 printable characters, and never empty once an AUTH has
      been sent. */
  lemma NameDiscipline(dest: Port, ready: bool, script: seq<Turn>, max: nat, n: nat)
    requires n <= |script|
    ensures var t := Run(Init(dest, ready), script, max, 0, n);
      && ValidName(t.dname) && (t.fsm != StartState ==> t.dname != [])
      && (t.fsm == OpenState ==> !t.portOpen)
  {
    InitInv(dest, ready);
    RunInv(Init(dest, ready), script, max, 0, n);
  }

  // ---------- bounded retransmission ----------

  function Timeouts(script: seq<Turn>, i: nat, j: nat): nat
    requires i <= j <= |script|
    decreases j - i
  {
    if i == j then 0 else Timeouts(script, i, j - 1) + (if script[j - 1].recv.TimedOut? then 1 else 0)
  }

  function Repeat(bytes: string, n: nat): seq<string> {
    if n == 0 then [] else Repeat(bytes, n - 1) + [bytes]
  }

  lemma WaitTurn(s: Session, e: Turn, max: nat)
    requires s.mode.Waiting? && s.mode.retries <= max
    ensures var t := Step(s, e, max);
      && (t.mode.Waiting? ==>
            if e.recv.TimedOut? then
              && t.mode == s.mode.(retries := s.mode.retries + 1) && t.mode.retries <= max
              && Summary(t.log).resent == Summary(s.log).resent + [s.mode.bytes]
            else t.mode == s.mode && Summary(t.log).resent == Summary(s.log).resent)
      && (e.recv.TimedOut? ==> (Gone(t) <==> s.mode.retries == max) && (t.mode.Waiting? <==> s.mode.retries < max))
  {
    hide Summary, Leave, Handle, Body, Header, IsRepeat, IsConfirm;
    MildLeave(s, true, EXIT_FAILURE);
    if e.recv.Datagram? {
      WaitingEffect(s, e, max);
      assert Summary(Entry(s, e).log).resent == Summary(s.log).resent;
    }
  }

  /** During one wait the message is retransmitted, with the same bytes, once per timeout and at most max
      times; the timeout that finds the limit reached, and no other, gives up. */
  lemma {:induction false} BoundedRetransmission(s: Session, script: seq<Turn>, max: nat, i: nat, j: nat)
    requires i <= j <= |script| && s.mode.Waiting? && s.mode.retries == 0
    requires forall k | i <= k <= j :: Run(s, script, max, i, k).mode.Waiting?
    ensures var t := Run(s, script, max, i, j);
      var n := Timeouts(script, i, j);
      && n <= max && t.mode == s.mode.(retries := n)
      && Summary(t.log).resent == Summary(s.log).resent + Repeat(s.mode.bytes, n)
      && (j < |script| && script[j].recv.TimedOut? ==> (Gone(Step(t, script[j], max)) <==> n == max))
    decreases j - i
  {
    hide Step, Summary;
    if i < j {
      BoundedRetransmission(s, script, max, i, j - 1);
      var u := Run(s, script, max, i, j - 1);
      assert Run(s, script, max, i, j) == Step(u, script[j - 1], max);
      WaitTurn(u, script[j - 1], max);
      var r := Repeat(s.mode.bytes, Timeouts(script, i, j - 1));
      assert Summary(s.log).resent + r + [s.mode.bytes] == Summary(s.log).resent + (r + [s.mode.bytes]);
    }
    if j < |script| {
      WaitTurn(Run(s, script, max, i, j), script[j], max);
    }
  }

  /** The wait for the confirmation of BYE sends nothing and survives at most max timeouts. */
  lemma {:induction false} BoundedFarewell(s: Session, script: seq<Turn>, max: nat, i: nat, j: nat)
    requires i <= j <= |script| && s.mode.Leaving? && s.mode.tries == 0
    ensures var t := Run(s, script, max, i, j);
      var g, h := Summary(s.log), Summary(t.log);
      && h.kinds == g.kinds && h.numbers == g.numbers && h.confirms == g.confirms && h.resent == g.resent
      && (t.mode == Exited(s.mode.code)
          || (t.mode == s.mode.(tries := Timeouts(script, i, j)) && Timeouts(script, i, j) <= max))
    decreases j - i
  {
    hide Summary, IsConfirm;
    if i < j {
      BoundedFarewell(s, script, max, i, j - 1);
    }
  }

  // ---------- leaving the retransmission loop ----------

  /** The loop returns to its caller exactly on the CONFIRM it waits for, provided the confirmation is
      still marked pending, or when the receive fails. */
  lemma ReleaseExact(s: Session, e: Turn, max: nat)
    requires s.mode.Waiting?
    ensures Step(s, e, max).mode.Polling? <==> Releases(s, e) || e.recv.RecvFailed?
  {
    StepCases(s, e, max);
    if e.recv.Datagram? {
      hide Summary, StepWaiting, Handle, IsConfirm, Header, Body;
      WaitingEffect(s, e, max);
    }
  }

  /** A wait whose pending mark was cleared by a CONFIRM for an older message. */
  predicate Wedged(s: Session) {
    s.mode.Waiting? && !s.confirmPending
  }

  lemma WedgedTurn(s: Session, e: Turn, max: nat)
    requires Wedged(s) && !e.recv.RecvFailed?
    ensures var t := Step(s, e, max); Gone(t) || (Wedged(t) && t.mode.id == s.mode.id)
  {
    hide Summary, StepWaiting, Handle, IsConfirm, Header, Body;
    WaitingEffect(s, e, max);
  }

  /** Such a wait never ends well: whatever arrives, the right CONFIRM included, the client either goes on
      waiting or leaves the program. */
  lemma {:induction false} WedgedForever(s: Session, script: seq<Turn>, max: nat, i: nat, j: nat)
    requires i <= j <= |script| && Wedged(s)
    requires forall k | i <= k < j :: !script[k].recv.RecvFailed?
    ensures var t := Run(s, script, max, i, j); Gone(t) || (Wedged(t) && t.mode.id == s.mode.id)
    decreases j - i
  {
    hide Step;
    if i < j {
      WedgedForever(s, script, max, i, j - 1);
      var u := Run(s, script, max, i, j - 1);
      if Wedged(u) {
        WedgedTurn(u, script[j - 1], max);
      } else {
        LeavingEffect(u, script[j - 1], max);
      }
    }
  }

  lemma HandleConfirm(s: Session, p: Packet)
    requires s.fsm != StartState && Header(p).typ == Confirm
    ensures !IsRepeat(p, s.seen) && Handle(s, Header(p), p, false) == TakeConfirm(s, Header(p).ref)
  {
    BodyKinds(p);
    hide Summary, Leave, ErrorExit, SendConfirm, TakeReply, TakeAuthReply;
  }

  /** The loop leaves the confirmed id in the queue, so a repeated CONFIRM for it wedges the next wait. */
  lemma StaleConfirmWedges(s: Session, e: Turn, max: nat)
    requires s.mode.Waiting? && s.fsm != StartState && s.confirmIds != [] && s.confirmIds[0] != s.mode.id
    requires e.recv.Datagram? && IsConfirm(e.recv.packet, s.confirmIds[0])
    ensures var t := Step(s, e, max);
      Wedged(t) && t.mode == s.mode && t.confirmIds == s.confirmIds[1..] && t.fsm == s.fsm
  {
    hide Summary, Handle, Leave, Header, Body, BodyShows, IsRepeat;
    HandleConfirm(Emit(s, Got(e.recv.packet, e.recv.port)), e.recv.packet);
  }

  /** A wait whose message is the first one in the queue of ids, still marked pending. */
  predicate Sound(s: Session) {
    s.mode.Waiting? && s.fsm != StartState && s.confirmPending && s.confirmIds != [] && s.confirmIds[0] == s.mode.id
  }

  /** Only a CONFIRM for the head of the queue changes the queue. */
  lemma HandleQueue(s: Session, p: Packet, repeated: bool)
    requires s.fsm != StartState
    requires Header(p).typ == Confirm ==> s.confirmIds == [] || s.confirmIds[0] != Header(p).ref
    ensures var t := Handle(s, Header(p), p, repeated);
      Gone(t) || (t.confirmIds == s.confirmIds && t.confirmPending == s.confirmPending && t.mode == s.mode)
  {
    BodyKinds(p);
    hide Summary, Record, Header, Body, BodyShows, Leave, ErrorExit;
    var m := Header(p);
    if m.typ == Confirm {
      if !repeated {
        HandleConfirm(s, p);
      }
    } else {
      MildLeave(SendConfirm(Show(Show(s, BodyShows(m, p)), BodyShows(Body(m, p), p)), m.id), true, EXIT_FAILURE);
      QuietQueue(Show(s, BodyShows(m, p)), Body(m, p), p);
    }
  }

  lemma QuietQueue(s: Session, m: Inbound, p: Packet)
    requires s.fsm != StartState && m.typ in {ReplyOk, ReplyNok, Msg, Err, Bye, InvalidMsg}
    ensures var t := if s.fsm == AuthState then HandleAuth(s, m) else HandleOpen(s, m, p);
      Gone(t) || (t.confirmIds == s.confirmIds && t.confirmPending == s.confirmPending && t.mode == s.mode)
  {
    hide Summary, Record, BodyShows, ConfirmBytes, ByeBytes, ErrBytes;
  }

  lemma SoundTurn(s: Session, e: Turn, max: nat)
    requires Sound(s)
    ensures var t := Step(s, e, max); t.mode.Waiting? ==> Sound(t) && t.mode.id == s.mode.id
  {
    hide Summary, Record, StepWaiting;
    StepCases(s, e, max);
    if e.recv.Datagram? {
      SoundPacket(s, e, max);
    } else {
      SoundPause(s, e, max);
    }
  }

  lemma SoundPause(s: Session, e: Turn, max: nat)
    requires Sound(s) && !e.recv.Datagram?
    ensures var t := StepWaiting(s, e, max); t.mode.Waiting? ==> Sound(t) && t.mode.id == s.mode.id
  {
    hide Summary, Record, Leave;
    MildLeave(s, true, EXIT_FAILURE);
  }

  lemma SoundPacket(s: Session, e: Turn, max: nat)
    requires Sound(s) && e.recv.Datagram?
    ensures var t := StepWaiting(s, e, max); t.mode.Waiting? ==> Sound(t) && t.mode.id == s.mode.id
  {
    hide Summary, Record, Handle, Header, IsRepeat;
    var p := e.recv.packet;
    if !IsConfirm(p, s.mode.id) {
      HandleQueue(Emit(s, Got(p, e.recv.port)), p, IsRepeat(p, s.seen));
      HandleEffect(Emit(s, Got(p, e.recv.port)), p, IsRepeat(p, s.seen));
    }
  }

  /** The wait lasts from turn 0 to turn j. */
  predicate Waits(s: Session, script: seq<Turn>, max: nat, j: nat)
    requires j <= |script|
  {
    forall k | 0 <= k <= j :: Run(s, script, max, 0, k).mode.Waiting?
  }

  lemma {:induction false} SoundThroughout(s: Session, script: seq<Turn>, max: nat, j: nat)
    requires Sound(s) && j <= |script| && Waits(s, script, max, j)
    ensures Sound(Run(s, script, max, 0, j))
  {
    hide Step, Sound;
    if j > 0 {
      assert Waits(s, script, max, j - 1);
      SoundThroughout(s, script, max, j - 1);
      SoundTurn(Run(s, script, max, 0, j - 1), script[j - 1], max);
      assert Run(s, script, max, 0, j) == Step(Run(s, script, max, 0, j - 1), script[j - 1], max);
    }
  }

  /** A wait that has just begun: whatever arrives, it is never wedged, if and only if its id is the head of the
      queue. Any older id in front of it can be confirmed once more. */
  lemma WaitSafeExact(s: Session, max: nat)
    requires s.mode.Waiting? && s.fsm != StartState && s.confirmPending && s.confirmIds != []
    ensures (forall script: seq<Turn>, j: nat | j <= |script| && Waits(s, script, max, j) ::
               !Wedged(Run(s, script, max, 0, j)))
       <==> s.confirmIds[0] == s.mode.id
  {
    if s.confirmIds[0] == s.mode.id {
      forall script: seq<Turn>, j: nat | j <= |script| && Waits(s, script, max, j)
        ensures !Wedged(Run(s, script, max, 0, j))
      {
        SoundThroughout(s, script, max, j);
      }
    } else {
      var id := s.confirmIds[0];
      ConfirmByeRoundTrip(id);
      var e := Turn(PollFailed, Datagram(ConfirmBytes(id), 0), Eof);
      StaleConfirmWedges(s, e, max);
      hide Step, ConfirmBytes, Header;
      assert Run(s, [e], max, 0, 0) == s;
      assert Run(s, [e], max, 0, 1) == Step(s, e, max);
      assert Waits(s, [e], max, 1);
    }
  }
}
