/** Stop and wait: which runs send a message of the user before the previous one is confirmed. */
module UdpStopAndWait {
  import opened UserLine
  import opened UdpWire
  import opened UdpSession
  import opened UdpGate
  import opened UdpTurns
  import opened UdpTheorems

  /** The receive of the retransmission loop does not fail. */
  predicate CleanWait(s: Session, e: Turn) {
    !(s.mode.Waiting? && e.recv.RecvFailed?)
  }

  predicate WaitInv(s: Session) {
    var w := Summary(s.log).wait;
    && !w.Violated?
    && (s.mode.Polling? ==> w.Free?)
    && (s.mode.Waiting? ==> w.Free? || w == Outstanding(s.mode.id))
  }

  lemma WaitPolling(s: Session, e: Turn, max: nat)
    requires WaitInv(s) && s.mode.Polling?
    ensures WaitInv(Step(s, e, max))
  {
    hide Summary, Receive, UserInput, IsConfirm, Header, Body, Grammar, Entry, StepPolling, StepWaiting, StepLeaving,
      Asks;
    PollingEffect(s, e);
    if TakesLine(s, e) {
      LineDoes(s, e);
    } else if TakesPacket(s, e) {
      EntryKeeps(s, e);
    }
  }

  lemma WaitWaiting(s: Session, e: Turn, max: nat)
    requires WaitInv(s) && s.mode.Waiting?
    ensures WaitInv(Step(s, e, max)) <==> !e.recv.RecvFailed? || Summary(s.log).wait.Free?
  {
    hide Summary, Handle, IsConfirm, Header, Body, Entry, StepPolling, StepWaiting, StepLeaving;
    StepCases(s, e, max);
    WaitingEffect(s, e, max);
    if TakesPacket(s, e) {
      EntryKeeps(s, e);
    }
  }

  lemma WaitLeaving(s: Session, e: Turn, max: nat)
    requires WaitInv(s) && s.mode.Leaving?
    ensures WaitInv(Step(s, e, max))
  {
    hide Summary, IsConfirm, StepPolling, StepWaiting;
  }

  /** The discipline of the wait is kept exactly unless a receive fails while the CONFIRM is missing. */
  lemma WaitStep(s: Session, e: Turn, max: nat)
    requires WaitInv(s)
    ensures WaitInv(Step(s, e, max)) <==> CleanWait(s, e) || Summary(s.log).wait.Free?
  {
    hide WaitInv, Summary, StepPolling, StepWaiting, StepLeaving;
    match s.mode
    case Polling => WaitPolling(s, e, max);
    case Waiting(_, _, _) => WaitWaiting(s, e, max);
    case Leaving(_, _) => WaitLeaving(s, e, max);
    case Exited(_) =>
  }

  predicate IsUserSend(o: Obs) {
    o.Sent? && IsUserType(o.typ)
  }

  /** A CONFIRM that carries the id of entry i arrives between entries i and j of the log. */
  predicate ConfirmedBefore(log: seq<Obs>, i: nat, j: nat)
    requires i < j <= |log| && IsUserSend(log[i])
  {
    exists k | i < k < j :: log[k].Got? && IsConfirm(log[k].packet, ToId(log[i].num))
  }

  /** Every user message but the last is confirmed before the next one is sent. */
  predicate StopAndWait(log: seq<Obs>) {
    forall i, j | 0 <= i < j < |log| && IsUserSend(log[i]) && IsUserSend(log[j]) :: ConfirmedBefore(log, i, j)
  }

  /** A user message that no CONFIRM has answered yet. */
  predicate Unconfirmed(log: seq<Obs>, i: nat) {
    i < |log| && IsUserSend(log[i]) && !ConfirmedBefore(log, i, |log|)
  }

  ghost predicate Agrees(log: seq<Obs>, w: Wait) {
    && (w.Violated? <==> !StopAndWait(log))
    && (w.Outstanding? ==> exists i: nat :: Unconfirmed(log, i))
    && (!w.Violated? ==> forall i: nat | Unconfirmed(log, i) :: w == Outstanding(ToId(log[i].num)))
  }

  lemma ExtendConfirmed(log: seq<Obs>, o: Obs, i: nat, j: nat)
    requires i < j <= |log| && IsUserSend(log[i])
    ensures ConfirmedBefore(log + [o], i, j) == ConfirmedBefore(log, i, j)
    ensures ConfirmedBefore(log + [o], i, |log| + 1)
        <==> ConfirmedBefore(log, i, |log|) || (o.Got? && IsConfirm(o.packet, ToId(log[i].num)))
  {
    hide IsConfirm;
    var t := log + [o];
    assert forall k | 0 <= k < |log| :: t[k] == log[k];
    assert t[|log|] == o;
    if ConfirmedBefore(log, i, |log|) {
      var k :| i < k < |log| && log[k].Got? && IsConfirm(log[k].packet, ToId(log[i].num));
      assert t[k].Got?;
    }
    if ConfirmedBefore(log, i, j) {
      var k :| i < k < j && log[k].Got? && IsConfirm(log[k].packet, ToId(log[i].num));
      assert t[k].Got?;
    }
  }

  lemma MonitorStep(prev: seq<Obs>, o: Obs, v: Wait)
    requires Agrees(prev, v)
    ensures Agrees(prev + [o], Monitor(v, o))
  {
    hide IsConfirm;
    var log, w, n := prev + [o], Monitor(v, o), |prev|;
    assert forall k | 0 <= k < n :: log[k] == prev[k];
    assert log[n] == o;
    forall i | 0 <= i < n && IsUserSend(prev[i])
      ensures ConfirmedBefore(log, i, n + 1)
        <==> ConfirmedBefore(prev, i, n) || (o.Got? && IsConfirm(o.packet, ToId(prev[i].num)))
      ensures forall j | i < j <= n :: ConfirmedBefore(log, i, j) == ConfirmedBefore(prev, i, j)
    {
      forall j | i < j <= n
        ensures ConfirmedBefore(log, i, j) == ConfirmedBefore(prev, i, j)
      {
        ExtendConfirmed(prev, o, i, j);
      }
      ExtendConfirmed(prev, o, i, n);
    }
    if v.Violated? {
      var i, j :| 0 <= i < j < n && IsUserSend(prev[i]) && IsUserSend(prev[j]) && !ConfirmedBefore(prev, i, j);
      assert !ConfirmedBefore(log, i, j);
    } else if v.Outstanding? {
      var i: nat :| Unconfirmed(prev, i);
      if IsUserSend(o) {
        assert !ConfirmedBefore(log, i, n);
      } else if w.Outstanding? {
        assert Unconfirmed(log, i);
      }
    } else if IsUserSend(o) {
      assert Unconfirmed(log, n);
    }
  }

  /** The monitor decides the property of the log: it reports a violation exactly when some user message
      was sent before the previous one was confirmed. */
  lemma {:induction false} MonitorDecides(log: seq<Obs>)
    ensures Agrees(log, Summary(log).wait)
  {
    hide IsConfirm;
    if log != [] {
      var prev, o := log[..|log| - 1], log[|log| - 1];
      MonitorDecides(prev);
      MonitorStep(prev, o, Summary(prev).wait);
      assert log == prev + [o];
    }
  }

  // ---------- whole runs ----------

  /** The turn receives a CONFIRM for the id, in whichever loop. */
  predicate Confirms(s: Session, e: Turn, id: Id) {
    TakesPacket(s, e) && IsConfirm(e.recv.packet, id)
  }

  /** The retransmission loop is left by a failed receive with the CONFIRM still missing. */
  predicate Abandons(s: Session, e: Turn) {
    s.mode.Waiting? && e.recv.RecvFailed? && Summary(s.log).wait == Outstanding(s.mode.id)
  }

  /** What one turn does to the monitor, and which turns enter, keep and leave the retransmission loop. */
  predicate Monitored(s: Session, e: Turn, t: Session) {
    var w, x := Summary(s.log).wait, Summary(t.log).wait;
    && x == (if SendsLine(s, e) then (if w.Free? then Outstanding(ToId(s.counter)) else Violated)
             else if w.Outstanding? && Confirms(s, e, w.id) then Free
             else w)
    && (SendsLine(s, e) ==> s.mode.Polling? && t.mode.Waiting?)
    && (t.mode.Waiting? ==>
          if s.mode.Waiting? then t.mode.id == s.mode.id else SendsLine(s, e) && t.mode.id == ToId(s.counter))
    && (s.mode.Waiting? && t.mode.Polling? ==> Confirms(s, e, s.mode.id) || e.recv.RecvFailed?)
  }

  lemma PollingMonitored(s: Session, e: Turn, max: nat)
    requires s.mode.Polling?
    ensures Monitored(s, e, Step(s, e, max))
  {
    hide Summary, Receive, UserInput, IsConfirm, Header, Body, Grammar, Entry, StepPolling, StepWaiting, StepLeaving,
      Sends, Asks;
    StepCases(s, e, max);
    PollingEffect(s, e);
    if TakesLine(s, e) {
      LineDoes(s, e);
    } else if TakesPacket(s, e) {
      EntryKeeps(s, e);
    }
  }

  lemma WaitingMonitored(s: Session, e: Turn, max: nat)
    requires s.mode.Waiting?
    ensures Monitored(s, e, Step(s, e, max))
    ensures e.recv.RecvFailed? ==> Step(s, e, max).mode.Polling?
  {
    hide Summary, Handle, IsConfirm, Header, Body, Entry, StepPolling, StepWaiting, StepLeaving;
    StepCases(s, e, max);
    WaitingEffect(s, e, max);
    if TakesPacket(s, e) {
      EntryKeeps(s, e);
    }
  }

  lemma TurnMonitored(s: Session, e: Turn, max: nat)
    requires Running(s)
    ensures Monitored(s, e, Step(s, e, max))
  {
    hide Step, Monitored;
    if s.mode.Polling? {
      PollingMonitored(s, e, max);
    } else {
      WaitingMonitored(s, e, max);
    }
  }

  lemma GoneMonitored(s: Session, e: Turn, max: nat)
    requires Gone(s)
    ensures var t := Step(s, e, max); Gone(t) && (Summary(s.log).wait.Violated? <==> Summary(t.log).wait.Violated?)
  {
    hide Summary, IsConfirm, StepPolling, StepWaiting;
  }

  /** A message that was abandoned in turn i is overtaken in turn j: the user's next message is sent before
      any CONFIRM for the abandoned one is received. */
  predicate Overtakes(s: Session, script: seq<Turn>, max: nat, i: nat, j: nat)
    requires j < |script|
  {
    && i < j && Abandons(Run(s, script, max, 0, i), script[i]) && SendsLine(Run(s, script, max, 0, j), script[j])
    && Unanswered(s, script, max, i, j)
  }

  /** Turn j overtakes a message that some earlier turn abandoned. */
  predicate Overtaking(s: Session, script: seq<Turn>, max: nat, j: nat)
    requires j < |script|
  {
    exists i | 0 <= i < j :: Overtakes(s, script, max, i, j)
  }

  /** No turn between i and j receives the CONFIRM for the message that turn i waits for. */
  predicate Unanswered(s: Session, script: seq<Turn>, max: nat, i: nat, j: nat)
    requires i < j <= |script| && Run(s, script, max, 0, i).mode.Waiting?
  {
    forall k | i < k < j :: !Confirms(Run(s, script, max, 0, k), script[k], Run(s, script, max, 0, i).mode.id)
  }

  predicate Broken(s: Session) {
    Summary(s.log).wait.Violated?
  }

  lemma {:induction false} BrokenStays(s: Session, script: seq<Turn>, max: nat, k: nat, n: nat)
    requires k <= n <= |script| && Broken(Run(s, script, max, 0, k))
    ensures Broken(Run(s, script, max, 0, n))
    decreases n - k
  {
    hide Step, Summary;
    if k < n {
      BrokenStays(s, script, max, k, n - 1);
      var t := Run(s, script, max, 0, n - 1);
      if Running(t) {
        TurnMonitored(t, script[n - 1], max);
      } else {
        GoneMonitored(t, script[n - 1], max);
      }
    }
  }

  /** The poll loop after a message was abandoned in turn i, up to turn k. */
  predicate StillMissing(s: Session, id: Id) {
    Broken(s) || Gone(s) || (s.mode.Polling? && Summary(s.log).wait == Outstanding(id))
  }

  lemma {:induction false} AbandonedStays(s: Session, script: seq<Turn>, max: nat, i: nat, k: nat)
    requires i < k <= |script| && Abandons(Run(s, script, max, 0, i), script[i]) && Unanswered(s, script, max, i, k)
    ensures StillMissing(Run(s, script, max, 0, k), Run(s, script, max, 0, i).mode.id)
    decreases k - i
  {
    hide Step, Summary;
    var u, t := Run(s, script, max, 0, i), Run(s, script, max, 0, k - 1);
    assert Run(s, script, max, 0, k) == Step(t, script[k - 1], max);
    if k == i + 1 {
      TurnMonitored(t, script[i], max);
      WaitingMonitored(t, script[i], max);
    } else {
      assert !Confirms(t, script[k - 1], u.mode.id);
      AbandonedStays(s, script, max, i, k - 1);
      if Running(t) {
        TurnMonitored(t, script[k - 1], max);
      } else {
        GoneMonitored(t, script[k - 1], max);
      }
    }
  }

  lemma OvertakingBreaks(s: Session, script: seq<Turn>, max: nat, i: nat, j: nat)
    requires j < |script| && Overtakes(s, script, max, i, j)
    ensures Broken(Run(s, script, max, 0, j + 1))
  {
    hide Step, Summary;
    var t := Run(s, script, max, 0, j);
    AbandonedStays(s, script, max, i, j);
    TurnMonitored(t, script[j], max);
  }

  /** Why the monitor still waits in the poll loop: an earlier turn abandoned the message. */
  predicate Explained(s: Session, script: seq<Turn>, max: nat, n: nat)
    requires n <= |script|
  {
    var t := Run(s, script, max, 0, n);
    var w := Summary(t.log).wait;
    match w
    case Free => true
    case Violated => exists j | 0 <= j < n :: Overtaking(s, script, max, j)
    case Outstanding(id) =>
      && (t.mode.Waiting? ==> t.mode.id == id)
      && (t.mode.Polling? ==> exists i | 0 <= i < n :: AbandonedAt(s, script, max, i, n, id))
  }

  predicate AbandonedAt(s: Session, script: seq<Turn>, max: nat, i: nat, n: nat, id: Id)
    requires i < n <= |script|
  {
    var t := Run(s, script, max, 0, i);
    Abandons(t, script[i]) && t.mode.id == id && Unanswered(s, script, max, i, n)
  }

  lemma ExplainedTurn(s: Session, script: seq<Turn>, max: nat, n: nat)
    requires n < |script| && Explained(s, script, max, n)
    ensures Explained(s, script, max, n + 1)
  {
    hide Step, Summary, Confirms, SendsLine;
    var t, e := Run(s, script, max, 0, n), script[n];
    var u := Step(t, e, max);
    assert Run(s, script, max, 0, n + 1) == u;
    var w, x := Summary(t.log).wait, Summary(u.log).wait;
    if Gone(t) {
      GoneMonitored(t, e, max);
      if x.Violated? {
        var j :| 0 <= j < n && Overtaking(s, script, max, j);
      }
    } else {
      TurnMonitored(t, e, max);
      if w.Violated? {
        var j :| 0 <= j < n && Overtaking(s, script, max, j);
      } else if x.Violated? {
        var i :| 0 <= i < n && AbandonedAt(s, script, max, i, n, w.id);
        assert Overtakes(s, script, max, i, n);
        assert Overtaking(s, script, max, n);
      } else if x.Outstanding? && u.mode.Polling? {
        if t.mode.Waiting? {
          assert AbandonedAt(s, script, max, n, n + 1, x.id);
        } else {
          var i :| 0 <= i < n && AbandonedAt(s, script, max, i, n, x.id);
          assert AbandonedAt(s, script, max, i, n + 1, x.id);
        }
      }
    }
  }

  lemma {:induction false} RunExplained(dest: Port, ready: bool, script: seq<Turn>, max: nat, n: nat)
    requires n <= |script|
    ensures Explained(Init(dest, ready), script, max, n)
  {
    hide Step, Summary;
    if n == 0 {
      InitFree(dest, ready);
    } else {
      RunExplained(dest, ready, script, max, n - 1);
      ExplainedTurn(Init(dest, ready), script, max, n - 1);
    }
  }

  lemma InitFree(dest: Port, ready: bool)
    ensures Summary(Init(dest, ready).log).wait.Free?
  {
    hide Summary;
    EmptySummary();
  }

  /** Stop and wait over all runs: every message of the user is sent only after a CONFIRM with the id of the
      previous one was received, whatever stale or repeated CONFIRMs arrive, if and only if no message whose
      wait ended in a failed receive is overtaken. */
  lemma StopAndWaitExact(dest: Port, ready: bool, script: seq<Turn>, max: nat, n: nat)
    requires n <= |script|
    ensures var s := Init(dest, ready);
      StopAndWait(Run(s, script, max, 0, n).log)
      <==> (forall j | 0 <= j < n :: !Overtaking(s, script, max, j))
  {
    hide Step, Overtakes, Run;
    var s := Init(dest, ready);
    MonitorDecides(Run(s, script, max, 0, n).log);
    RunExplained(dest, ready, script, max, n);
    forall j | 0 <= j < n && Overtaking(s, script, max, j)
      ensures Broken(Run(s, script, max, 0, n))
    {
      var i :| 0 <= i < j && Overtakes(s, script, max, i, j);
      OvertakingBreaks(s, script, max, i, j);
      BrokenStays(s, script, max, j + 1, n);
    }
  }

  /** In particular when no receive of the retransmission loop fails; the loop is then never left with a
      CONFIRM missing. */
  lemma {:induction false} StopAndWaitSafety(dest: Port, ready: bool, script: seq<Turn>, max: nat, n: nat)
    requires n <= |script|
    requires forall k | 0 <= k < n :: CleanWait(Run(Init(dest, ready), script, max, 0, k), script[k])
    ensures var t := Run(Init(dest, ready), script, max, 0, n); WaitInv(t) && StopAndWait(t.log)
  {
    hide Step, StopAndWait, Summary;
    var s := Init(dest, ready);
    if n > 0 {
      StopAndWaitSafety(dest, ready, script, max, n - 1);
      WaitStep(Run(s, script, max, 0, n - 1), script[n - 1], max);
    } else {
      InitFree(dest, ready);
    }
    MonitorDecides(Run(s, script, max, 0, n).log);
  }
}
