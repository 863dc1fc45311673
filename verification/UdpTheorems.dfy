/** Whole-run properties of the UDP client, for every script of network and user behaviour. */
module UdpTheorems {
  import opened Chat
  import opened UserLine
  import opened UdpWire
  import opened UdpSession
  import opened UdpInvariants
  import opened UdpGate
  import opened UdpTurns

  // ---------- requests, replies and authentication ----------

  predicate GateInv(s: Session) {
    Paired(s) && AuthsOnly(s)
  }

  /** The turn brings a positive REPLY to the most recently sent AUTH, with no chat message sent yet. */
  predicate OpensBy(s: Session, e: Turn) {
    var h := Summary(s.log);
    && s.fsm == AuthState && s.replyPending && e.recv.Datagram?
    && h.auths != [] && IsReplyOk(e.recv.packet, Last(h.auths)) && h.chats == []
  }

  lemma EntryKeeps(s: Session, e: Turn)
    requires TakesPacket(s, e)
    ensures var t := Entry(s, e);
      && SameRequest(s, t) && SamePort(s, t) && t.fsm == s.fsm && t.mode == s.mode
      && t.confirmPending == s.confirmPending && t.dname == s.dname
      && var g, h := Summary(s.log), Summary(t.log);
      && h == g.(wait := Monitor(g.wait, Got(e.recv.packet, e.recv.port)))
  {
    hide Summary, IsConfirm, Monitor;
  }

  lemma GatePolling(s: Session, e: Turn, max: nat)
    requires GateInv(s) && s.mode.Polling?
    ensures GateInv(Step(s, e, max)) <==> !DoubleRequest(s, e)
    ensures s.fsm != OpenState && Step(s, e, max).fsm == OpenState ==> OpensBy(s, e)
  {
    hide Summary, StepPolling, StepWaiting, StepLeaving, Receive, UserInput, IsConfirm, Header, Body, Grammar, Entry;
    PollingEffect(s, e);
    if TakesLine(s, e) {
      LineDoes(s, e);
    } else if TakesPacket(s, e) {
      EntryKeeps(s, e);
    }
  }

  lemma GateWaiting(s: Session, e: Turn, max: nat)
    requires GateInv(s) && s.mode.Waiting?
    ensures GateInv(Step(s, e, max))
    ensures s.fsm != OpenState && Step(s, e, max).fsm == OpenState ==> OpensBy(s, e)
  {
    hide Summary, StepPolling, StepWaiting, StepLeaving, Handle, IsConfirm, Header, Body, Entry;
    WaitingEffect(s, e, max);
    if TakesPacket(s, e) {
      EntryKeeps(s, e);
    }
  }

  /** A turn keeps requests and replies paired exactly unless it takes a second request. */
  lemma GateStep(s: Session, e: Turn, max: nat)
    requires GateInv(s)
    ensures GateInv(Step(s, e, max)) <==> !DoubleRequest(s, e)
    ensures s.fsm != OpenState && Step(s, e, max).fsm == OpenState ==> OpensBy(s, e)
  {
    match s.mode
    case Polling => GatePolling(s, e, max);
    case Waiting(_, _, _) => GateWaiting(s, e, max);
    case Leaving(_, _) =>
      hide Step, Summary;
      LeavingEffect(s, e, max);
    case Exited(_) =>
  }

  /** No turn before n takes a second request. */
  predicate SingleRequests(s: Session, script: seq<Turn>, max: nat, n: nat)
    requires n <= |script|
  {
    forall k | 0 <= k < n :: !DoubleRequest(Run(s, script, max, 0, k), script[k])
  }

  predicate PairedThroughout(s: Session, script: seq<Turn>, max: nat, n: nat)
    requires n <= |script|
  {
    forall k | 0 <= k <= n :: GateInv(Run(s, script, max, 0, k))
  }

  lemma ThroughoutSplit(s: Session, script: seq<Turn>, max: nat, n: nat)
    requires 0 < n <= |script|
    ensures PairedThroughout(s, script, max, n)
       <==> PairedThroughout(s, script, max, n - 1) && GateInv(Step(Run(s, script, max, 0, n - 1), script[n - 1], max))
    ensures SingleRequests(s, script, max, n)
       <==> SingleRequests(s, script, max, n - 1) && !DoubleRequest(Run(s, script, max, 0, n - 1), script[n - 1])
    ensures PairedThroughout(s, script, max, n - 1) ==> GateInv(Run(s, script, max, 0, n - 1))
  {
    hide Step, GateInv, DoubleRequest;
    assert Run(s, script, max, 0, n) == Step(Run(s, script, max, 0, n - 1), script[n - 1], max);
  }

  /** Request and reply pairing over whole runs: between any two turns of either loop the queue of
      requests is exactly the pending one, and every other request has had its reply printed, if and only
      if no turn takes a second request through the stale bit of poll. */
  lemma {:induction false} RequestPairing(dest: Port, ready: bool, script: seq<Turn>, max: nat, n: nat)
    requires n <= |script|
    ensures PairedThroughout(Init(dest, ready), script, max, n) <==> SingleRequests(Init(dest, ready), script, max, n)
  {
    hide Step, GateInv, DoubleRequest;
    var s := Init(dest, ready);
    if n > 0 {
      hide PairedThroughout, SingleRequests, Run;
      RequestPairing(dest, ready, script, max, n - 1);
      ThroughoutSplit(s, script, max, n);
      if PairedThroughout(s, script, max, n - 1) {
        GateStep(Run(s, script, max, 0, n - 1), script[n - 1], max);
      }
    } else {
      InitGate(dest, ready);
    }
  }

  lemma InitGate(dest: Port, ready: bool)
    ensures GateInv(Init(dest, ready))
  {
    hide Summary;
    EmptySummary();
  }

  /** What holds in every state, also after a second request: the queue is a suffix of the requests sent,
      every request before it had one reply printed, and before the open state all requests are AUTHs. */
  predicate Fifo(s: Session) {
    var h := Summary(s.log);
    && IsSuffix(s.replyIds, h.requests) && |h.requests| == |h.replies| + |s.replyIds|
    && (s.replyPending ==> s.replyIds != [])
    && AuthsOnly(s)
  }

  /** The turn brings a positive REPLY to the oldest AUTH without one, with no chat message sent yet. */
  predicate OpensByOldest(s: Session, e: Turn) {
    var h := Summary(s.log);
    && s.fsm == AuthState && s.replyPending && e.recv.Datagram? && s.replyIds != [] && IsSuffix(s.replyIds, h.auths)
    && IsReplyOk(e.recv.packet, s.replyIds[0]) && h.chats == []
  }

  lemma FifoPolling(s: Session, e: Turn, max: nat)
    requires Fifo(s) && s.mode.Polling?
    ensures Fifo(Step(s, e, max))
    ensures s.fsm != OpenState && Step(s, e, max).fsm == OpenState ==> OpensByOldest(s, e)
  {
    hide Summary, StepPolling, StepWaiting, StepLeaving, Receive, UserInput, IsConfirm, Header, Body, Grammar, Entry,
      IsSuffix;
    PollingEffect(s, e);
    AppendSuffix(s.replyIds, Summary(s.log).requests, ToId(s.counter));
    if TakesLine(s, e) {
      LineDoes(s, e);
    } else if TakesPacket(s, e) {
      EntryKeeps(s, e);
    }
  }

  lemma FifoWaiting(s: Session, e: Turn, max: nat)
    requires Fifo(s) && s.mode.Waiting?
    ensures Fifo(Step(s, e, max))
    ensures s.fsm != OpenState && Step(s, e, max).fsm == OpenState ==> OpensByOldest(s, e)
  {
    hide Summary, StepPolling, StepWaiting, StepLeaving, Handle, IsConfirm, Header, Body, Entry, IsSuffix;
    WaitingEffect(s, e, max);
    AppendSuffix(s.replyIds, Summary(s.log).requests, 0);
    if TakesPacket(s, e) {
      EntryKeeps(s, e);
    }
  }

  lemma FifoStep(s: Session, e: Turn, max: nat)
    requires Fifo(s)
    ensures Fifo(Step(s, e, max))
    ensures s.fsm != OpenState && Step(s, e, max).fsm == OpenState ==> OpensByOldest(s, e)
  {
    match s.mode
    case Polling => FifoPolling(s, e, max);
    case Waiting(_, _, _) => FifoWaiting(s, e, max);
    case Leaving(_, _) =>
      hide Step, Summary;
      LeavingEffect(s, e, max);
    case Exited(_) =>
  }

  lemma {:induction false} RunFifo(dest: Port, ready: bool, script: seq<Turn>, max: nat, n: nat)
    requires n <= |script|
    ensures Fifo(Run(Init(dest, ready), script, max, 0, n))
  {
    hide Step, Fifo;
    if n > 0 {
      RunFifo(dest, ready, script, max, n - 1);
      FifoStep(Run(Init(dest, ready), script, max, 0, n - 1), script[n - 1], max);
    } else {
      InitFifo(dest, ready);
    }
  }

  lemma InitFifo(dest: Port, ready: bool)
    ensures Fifo(Init(dest, ready))
  {
    hide Summary;
    EmptySummary();
  }

  lemma FifoQuiet(s: Session)
    requires Fifo(s)
    ensures s.fsm != OpenState ==> Summary(s.log).chats == []
  {
    hide Summary, IsSuffix;
  }

  /** Turn k of the run enters the open state. */
  predicate Enters(s: Session, script: seq<Turn>, max: nat, k: nat)
    requires k < |script|
  {
    var t := Run(s, script, max, 0, k);
    t.fsm != OpenState && Step(t, script[k], max).fsm == OpenState
  }

  lemma EntrySafe(dest: Port, ready: bool, script: seq<Turn>, max: nat, k: nat)
    requires k < |script| && Enters(Init(dest, ready), script, max, k)
    ensures OpensByOldest(Run(Init(dest, ready), script, max, 0, k), script[k])
  {
    hide Step, Run, OpensByOldest, Fifo, Summary;
    RunFifo(dest, ready, script, max, k);
    FifoStep(Run(Init(dest, ready), script, max, 0, k), script[k], max);
  }

  lemma {:induction false} EnteredOnce(s: Session, script: seq<Turn>, max: nat, n: nat)
    requires n <= |script| && s.fsm != OpenState && Run(s, script, max, 0, n).fsm == OpenState
    ensures exists k | 0 <= k < n :: Enters(s, script, max, k)
  {
    hide Step;
    var t := Run(s, script, max, 0, n - 1);
    assert Run(s, script, max, 0, n) == Step(t, script[n - 1], max);
    if t.fsm == OpenState {
      EnteredOnce(s, script, max, n - 1);
    } else {
      assert Enters(s, script, max, n - 1);
    }
  }

  /** Authentication safety over all runs: the open state is entered only by a positive REPLY to the oldest
      AUTH without a reply, and until then no JOIN, MSG or blank line was sent. */
  lemma AuthenticationSafety(dest: Port, ready: bool, script: seq<Turn>, max: nat, n: nat)
    requires n <= |script|
    ensures var s := Init(dest, ready);
      var t := Run(s, script, max, 0, n);
      && (forall k | 0 <= k < n && Enters(s, script, max, k) :: OpensByOldest(Run(s, script, max, 0, k), script[k]))
      && (if t.fsm == OpenState then exists k | 0 <= k < n :: Enters(s, script, max, k)
          else Summary(t.log).chats == [])
  {
    hide Step, Run, OpensByOldest, Fifo, Summary, Enters;
    var s := Init(dest, ready);
    RunFifo(dest, ready, script, max, n);
    FifoQuiet(Run(s, script, max, 0, n));
    forall k | 0 <= k < n && Enters(s, script, max, k)
      ensures OpensByOldest(Run(s, script, max, 0, k), script[k])
    {
      EntrySafe(dest, ready, script, max, k);
    }
    if Run(s, script, max, 0, n).fsm == OpenState {
      EnteredOnce(s, script, max, n);
    }
  }

  /** The REPLY that opens the session answers the most recently sent AUTH exactly when the oldest id of the
      queue is also its newest; that is so in every run that takes no second request. */
  lemma OpeningAuth(dest: Port, ready: bool, script: seq<Turn>, max: nat, k: nat)
    requires k < |script|
    ensures var s := Init(dest, ready);
      var t := Run(s, script, max, 0, k);
      Enters(s, script, max, k) ==>
        && t.replyIds != []
        && (OpensBy(t, script[k]) <==> t.replyIds[0] == Last(t.replyIds))
        && (SingleRequests(s, script, max, k) ==> OpensBy(t, script[k]))
  {
    var s := Init(dest, ready);
    var t := Run(s, script, max, 0, k);
    RunFifo(dest, ready, script, max, k);
    FifoStep(t, script[k], max);
    RequestPairing(dest, ready, script, max, k);
    hide Step, Run, Summary, Header, Body, SingleRequests;
  }

}
