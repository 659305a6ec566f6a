/** Every step keeps the clients' view right. */
module Serving {
  import opened Wrappers
  import opened RaftTypes
  import opened NodeModel
  import opened Cluster
  import opened Invariant
  import opened Preservation
  import opened QuietSteps
  import opened Replication
  import opened History

  ghost predicate KeepsHistory(step: Step) {
    !step.Propose? && !step.ApplyOne?
  }

  lemma NodeServes(w: World, n: Id)
    requires NodesServe(w) && n in w.nodes
    ensures Applied(w.nodes[n]) && PendingPart(w, n, w.nodes[n]) && AnswersPart(w, w.nodes[n])
  {
    assert Applied(w.nodes[n]);
  }

  /** Steps that change neither log, applied index nor base: the machine is still the log's. */
  lemma SameMachine(s: Node, s': Node)
    requires Applied(s) && Shaped(s')
    requires s'.log == s.log && s'.applied == s.applied && s'.base == s.base
    requires s'.machine == s.machine && s'.snapshot == s.snapshot
    ensures Applied(s')
  {
  }

  /** The applied prefix survives any change of the log that keeps it. */
  lemma LongerMachine(s: Node, s': Node)
    requires Applied(s) && Shaped(s') && Agree(s.log, s'.log, s.applied + 1)
    requires s'.applied == s.applied && s'.base == s.base && s'.machine == s.machine && s'.snapshot == s.snapshot
    ensures Applied(s')
  {
    MachineAgrees(s.log, s'.log, s.applied);
    MachineAgrees(s.log, s'.log, s.base);
  }

  /** Merging a leader's entries keeps the committed, hence the applied, prefix. */
  lemma AcceptedMachine(w: World, n: Id, req: AppendRequest)
    requires Inv(w) && n in w.nodes && AppendReq(req) in w.net && req.term == w.nodes[n].term
    requires Acceptable(w.nodes[n], req) && Applied(w.nodes[n])
    ensures Applied(AcceptedNode(w.nodes[n], req))
  {
    var s, s', t := w.nodes[n], AcceptedNode(w.nodes[n], req), req.term;
    RequestFacts(w, req);
    AcceptedParts(w, n, req);
    LogParts(w, n);
    assert Agree(s.log, w.reigns[t].log, s.commit + 1) by {
      ReignsWellFormed(w);
      CoveredIsLeaders(w, t, s.log, s.commit);
    }
    assert Agree(s.log, s.log, s.commit + 1) && Agree(s.log, s'.log, s.commit + 1);
    LongerMachine(s, s');
  }

  lemma FailPendingAnswers(w: World, s: Node, a: Answer)
    requires AnswersPart(w, s) && !a.Answered?
    ensures AnswersPart(w, FailPending(s, a))
  {
  }

  /** Everything but proposing and applying: the stepping node still serves. */
  lemma StepperServes(w: World, step: Step)
    requires Inv(w) && Served(w) && Enabled(w, step) && KeepsHistory(step) && !step.Accept?
    ensures var w' := Do(w, step);
            Applied(w'.nodes[step.n]) && PendingPart(w', step.n, w'.nodes[step.n]) && AnswersPart(w', w'.nodes[step.n])
  {
    var n, w' := step.n, Do(w, step);
    var s, s' := w.nodes[n], w'.nodes[n];
    NodeServes(w, n);
    if step.Bump? {
      FailPendingAnswers(w, s.(term := step.term, vote := None, role := Follower, leader := step.leader), NotLeader(step.leader));
    }
    if step.Elect? {
      LongerMachine(s, s');
    } else if !step.Compact? && !step.Reopen? {
      SameMachine(s, s');
    }
    PendingGrows(w, w', n, s, s');
  }

  lemma AccepterServes(w: World, step: Step)
    requires Inv(w) && Served(w) && Enabled(w, step) && step.Accept?
    ensures var w' := Do(w, step);
            Applied(w'.nodes[step.n]) && PendingPart(w', step.n, w'.nodes[step.n]) && AnswersPart(w', w'.nodes[step.n])
  {
    var n, w' := step.n, Do(w, step);
    NodeServes(w, n);
    AcceptedMachine(w, n, step.areq);
    PendingGrows(w, w', n, w.nodes[n], w'.nodes[n]);
  }

  lemma OnlyStepperMoves(w: World, step: Step)
    requires Enabled(w, step) && step.n in w.nodes
    ensures OthersSame(w, Do(w, step), step.n)
    ensures KeepsHistory(step) ==> Do(w, step).history == w.history
  {
    hide Bumped, Elected, Registered, AcceptedNode, ApplyNext, Reopened, Counted, Harmless, Grants, Acceptable, Solicitation, Window;
  }

  lemma HistoryKeptServes(w: World, step: Step)
    requires Inv(w) && Served(w) && Enabled(w, step) && KeepsHistory(step) && Grows(w, Do(w, step))
    ensures Served(Do(w, step))
  {
    OnlyStepperMoves(w, step);
    if step.Accept? {
      AccepterServes(w, step);
    } else {
      StepperServes(w, step);
    }
    hide Do, Inv, Served, Enabled, Grows;
    ServedInherits(w, Do(w, step), step.n);
  }

  // ---- New events ----

  ghost predicate Fits(w': World, e: Event, k: nat)
    requires k < |w'.history| && e == w'.history[k]
  {
    && InvokeOK(w', e) && ReplyOK(w', k)
    && (forall j :: 0 <= j < k ==> InOrder(w'.history[j], e))
    && (e.Reply? ==> forall j :: 0 <= j < k && w'.history[j].Reply? ==> w'.history[j].op != e.op)
  }

  lemma EventsAppend(w: World, w': World, e: Event)
    requires EventsOK(w) && Grows(w, w') && w'.history == w.history + [e] && Fits(w', e, |w.history|)
    ensures EventsOK(w')
  {
    forall k | 0 <= k < |w'.history| ensures EventOK(w', k) {
      if k < |w.history| {
        assert EventOK(w, k);
        InvokeGrows(w, w', w.history[k]);
        ReplyGrows(w, w', k);
      }
    }
    forall j, k | 0 <= j < k < |w'.history| ensures InOrder(w'.history[j], w'.history[k]) {
      assert k < |w.history| ==> InOrder(w.history[j], w.history[k]);
    }
  }

  /** Other nodes' waiters do not mind a new event that answers none of them. */
  lemma OtherPending(w: World, w': World, m: Id, s: Node, e: Event)
    requires PendingPart(w, m, s) && w'.history == w.history + [e]
    requires e.Reply? ==> e.op < |w.history| && w.history[e.op].Invoke? && w.history[e.op].node != m
    ensures PendingPart(w', m, s)
  {
    forall i | i in s.pending ensures WaiterOK(w', m, s, i) {
      assert WaiterOK(w, m, s, i);
    }
    forall i, k | i in s.pending && 0 <= k < |w'.history|
      ensures w'.history[k].Invoke? || w'.history[k].op != s.pending[i].ticket
    {
      assert WaiterOK(w, m, s, i);
    }
  }

  lemma NodesServeAppend(w: World, w': World, n: Id, e: Event)
    requires NodesServe(w) && OthersSame(w, w', n) && w'.history == w.history + [e]
    requires e.Reply? ==> e.op < |w.history| && w.history[e.op].Invoke? && w.history[e.op].node == n
    requires Applied(w'.nodes[n]) && PendingPart(w', n, w'.nodes[n]) && AnswersPart(w', w'.nodes[n])
    ensures NodesServe(w')
  {
    forall m | m in w'.nodes
      ensures Applied(w'.nodes[m]) && PendingPart(w', m, w'.nodes[m]) && AnswersPart(w', w'.nodes[m])
    {
      if m != n {
        NodeServes(w, m);
        OtherPending(w, w', m, w.nodes[m], e);
      }
    }
  }

  // ---- Proposing ----

  lemma InvokeFits(w: World, step: Step)
    requires Inv(w) && Served(w) && Enabled(w, step) && step.Propose? && Grows(w, Do(w, step))
    ensures var w', k := Do(w, step), |w.history|; k < |w'.history| && Fits(w', w'.history[k], k)
  {
    var n, w', k := step.n, Do(w, step), |w.history|;
    var s, e := w.nodes[n], w'.history[k];
    NodeParts(w, n);
    hide Inv, Grows, LogPart, VotePart, CandidatePart, ReplyOK;
    forall j | 0 <= j < k ensures InOrder(w'.history[j], e) {
      assert EventOK(w, j);
    }
  }

  lemma ProposerServes(w: World, step: Step)
    requires Inv(w) && Served(w) && Enabled(w, step) && step.Propose?
    ensures var w' := Do(w, step);
            Applied(w'.nodes[step.n]) && PendingPart(w', step.n, w'.nodes[step.n]) && AnswersPart(w', w'.nodes[step.n])
  {
    var n, w' := step.n, Do(w, step);
    var s, s' := w.nodes[n], w'.nodes[n];
    NodeServes(w, n);
    LongerMachine(s, s');
    forall i | i in s'.pending ensures WaiterOK(w', n, s', i) {
      if i != |s.log| {
        assert WaiterOK(w, n, s, i);
      }
    }
    forall i, k | i in s'.pending && 0 <= k < |w'.history|
      ensures w'.history[k].Invoke? || w'.history[k].op != s'.pending[i].ticket
    {
      if k < |w.history| {
        assert EventOK(w, k);
      }
    }
  }

  lemma ProposeServes(w: World, step: Step)
    requires Inv(w) && Served(w) && Enabled(w, step) && step.Propose? && Grows(w, Do(w, step))
    ensures Served(Do(w, step))
  {
    var w' := Do(w, step);
    InvokeFits(w, step);
    EventsAppend(w, w', w'.history[|w.history|]);
    ProposerServes(w, step);
    NodesServeAppend(w, w', step.n, w'.history[|w.history|]);
  }

  // ---- Applying ----

  /** An applied entry of the leader's own term was chosen in that term. */
  lemma AppliedIsChosen(w: World, n: Id, i: nat) returns (k: nat)
    requires Inv(w) && n in w.nodes && w.nodes[n].role == Leader
    requires 0 < i <= w.nodes[n].commit < |w.nodes[n].log| && w.nodes[n].log[i].term == w.nodes[n].term
    ensures i <= k && Chosen(w, w.nodes[n].term, k) && w.reigns[w.nodes[n].term].log == w.nodes[n].log
  {
    var s := w.nodes[n];
    assert NodeOK(w, n, s);
    var t1: nat, j: nat :| t1 <= s.term && CoveredBy(w, s.log, s.commit, t1, j);
    assert ReignOK(w, t1, w.reigns[t1]);
    var l := w.reigns[t1].log;
    assert l[i] == s.log[i] && l[i].term <= l[|l| - 1].term;
    k := j;
  }

  /** What the waiter for the next entry to apply is told. */
  function NextReply(s: Node): Event
    requires Shaped(s) && s.applied < s.commit && s.applied + 1 in s.pending
  {
    var i := s.applied + 1;
    var (after, out) := ApplyEntry(s.machine, s.log[i]);
    Reply(s.pending[i].ticket, Hear(after, out, s.pending[i].readKey))
  }

  /** An answer handed to a waiter is the sequential machine's answer to its own operation. */
  lemma AnswerIsRight(w: World, w': World, n: Id)
    requires Inv(w) && Served(w) && Grows(w, w') && n in w.nodes
    requires Shaped(w.nodes[n]) && w.nodes[n].applied < w.nodes[n].commit && w.nodes[n].applied + 1 in w.nodes[n].pending
    requires w'.history == w.history + [NextReply(w.nodes[n])] && w'.reigns == w.reigns
    ensures ReplyOK(w', |w.history|)
  {
    var s, k := w.nodes[n], |w.history|;
    var i := s.applied + 1;
    NodeServes(w, n);
    assert WaiterOK(w, n, s, i);
    var j := AppliedIsChosen(w, n, i);
    ChosenGrows(w, w', s.term, j);
    assert ReplyAt(w', w'.history[s.pending[i].ticket], w'.history[k].outcome, j);
  }

  lemma AnswerFits(w: World, w': World, n: Id)
    requires Inv(w) && Served(w) && Grows(w, w') && n in w.nodes
    requires Shaped(w.nodes[n]) && w.nodes[n].applied < w.nodes[n].commit && w.nodes[n].applied + 1 in w.nodes[n].pending
    requires w'.history == w.history + [NextReply(w.nodes[n])] && w'.reigns == w.reigns
    ensures var e, k := NextReply(w.nodes[n]), |w.history|;
            && Fits(w', e, k) && e.op < k && w.history[e.op].Invoke? && w.history[e.op].node == n
  {
    var s := w.nodes[n];
    NodeServes(w, n);
    assert WaiterOK(w, n, s, s.applied + 1);
    AnswerIsRight(w, w', n);
  }

  /** Answering the waiter at `a` leaves the other waiters waiting. */
  lemma AnsweredPending(w: World, w': World, n: Id, s: Node, s': Node, a: nat)
    requires PendingPart(w, n, s) && a == s.applied + 1 == s'.applied && s'.log == s.log && s'.term == s.term
    requires s'.role == s.role && s'.pending == s.pending - {a}
    requires w'.history == w.history || (a in s.pending && exists out :: w'.history == w.history + [Reply(s.pending[a].ticket, out)])
    ensures PendingPart(w', n, s')
  {
    forall i | i in s'.pending ensures WaiterOK(w', n, s', i) {
      assert WaiterOK(w, n, s, i);
    }
    forall i, k | i in s'.pending && 0 <= k < |w'.history|
      ensures w'.history[k].Invoke? || w'.history[k].op != s'.pending[i].ticket
    {
      assert WaiterOK(w, n, s, i) && (a in s.pending ==> WaiterOK(w, n, s, a));
    }
  }

  lemma ApplierServes(w: World, step: Step)
    requires Served(w) && Enabled(w, step) && step.ApplyOne?
    ensures var w' := Do(w, step);
            Applied(w'.nodes[step.n]) && PendingPart(w', step.n, w'.nodes[step.n]) && AnswersPart(w', w'.nodes[step.n])
  {
    var n, w' := step.n, Do(w, step);
    var s, s' := w.nodes[n], w'.nodes[n];
    hide Hear, InvokeOK, EventsOK;
    NodeServes(w, n);
    ApplyNextFrame(s);
    AnsweredPending(w, w', n, s, s', s.applied + 1);
  }

  lemma ApplyRecords(w: World, step: Step)
    requires Enabled(w, step) && step.ApplyOne?
    ensures var w', s := Do(w, step), w.nodes[step.n];
            && w'.reigns == w.reigns
            && w'.history == if s.applied + 1 in s.pending then w.history + [NextReply(s)] else w.history
  {
  }

  lemma ApplyServes(w: World, step: Step)
    requires Inv(w) && Served(w) && Enabled(w, step) && step.ApplyOne? && Grows(w, Do(w, step))
    ensures Served(Do(w, step))
  {
    var n, w' := step.n, Do(w, step);
    ApplierServes(w, step);
    ApplyRecords(w, step);
    OnlyStepperMoves(w, step);
    if w.nodes[n].applied + 1 in w.nodes[n].pending {
      hide Do;
      AnswerFits(w, w', n);
      EventsAppend(w, w', w'.history[|w.history|]);
      NodesServeAppend(w, w', n, w'.history[|w.history|]);
    } else {
      hide Do;
      ServedInherits(w, w', n);
    }
  }
}
