/** What the leaders' logs hold was submitted, and logs keep the order of submission. */
module Submissions {
  import opened RaftTypes
  import opened NodeModel
  import opened Cluster
  import opened Invariant
  import opened QuietSteps
  import opened History
  import opened Serving
  import opened Safety

  ghost predicate InvokedAt(w: World, e: Entry, q: nat) {
    q < |w.history| && w.history[q].Invoke? && w.history[q].entry == e
  }

  /** A command that a leader appended in its own term is some client's. */
  ghost predicate Submitted(w: World, t: nat, i: nat)
    requires t in w.reigns && i < |w.reigns[t].log|
  {
    var e := w.reigns[t].log[i];
    e.term == t && e.command.Some? ==> exists q :: InvokedAt(w, e, q)
  }

  predicate HasEntry(log: Log, e: Entry) {
    0 < e.index < |log| && log[e.index] == e
  }

  /** In the log of the operation `r`'s own term, operations before `r` were invoked before it. */
  ghost predicate InSequence(w: World, q: nat, r: nat)
    requires q < |w.history| && r < |w.history|
  {
    var a, b := w.history[q], w.history[r];
    a.Invoke? && b.Invoke? && b.term in w.reigns && HasEntry(w.reigns[b.term].log, a.entry) && a.entry.index < b.entry.index ==>
      q < r
  }

  ghost predicate Recorded(w: World) {
    && (forall t, i {:trigger Submitted(w, t, i)} :: t in w.reigns && 0 < i < |w.reigns[t].log| ==> Submitted(w, t, i))
    && (forall q, r {:trigger InSequence(w, q, r)} :: 0 <= q < |w.history| && 0 <= r < |w.history| ==> InSequence(w, q, r))
  }

  // ---- What outlives a step ----

  lemma SubmittedGrows(w: World, w': World, t: nat, i: nat)
    requires Grows(w, w') && w.history <= w'.history && t in w.reigns && i < |w.reigns[t].log| && Submitted(w, t, i)
    ensures t in w'.reigns && i < |w'.reigns[t].log| && Submitted(w', t, i)
  {
    assert Agree(w.reigns[t].log, w'.reigns[t].log, |w.reigns[t].log|);
    var e := w.reigns[t].log[i];
    if e.term == t && e.command.Some? {
      var q :| InvokedAt(w, e, q);
      assert InvokedAt(w', e, q);
    }
  }

  lemma SequenceGrows(w: World, w': World, q: nat, r: nat)
    requires Grows(w, w') && w.history <= w'.history && q < |w.history| && r < |w.history|
    requires InvokeOK(w, w.history[r]) && InSequence(w, q, r)
    ensures InSequence(w', q, r)
  {
    if w.history[r].Invoke? {
      var t := w.history[r].term;
      assert Agree(w.reigns[t].log, w'.reigns[t].log, |w.reigns[t].log|);
    }
  }

  /** Leaders' logs that did not grow, and at most an answer more. */
  lemma RecordedInherits(w: World, w': World)
    requires Recorded(w) && EventsOK(w) && Grows(w, w') && w'.reigns == w.reigns && w.history <= w'.history
    requires forall k :: |w.history| <= k < |w'.history| ==> w'.history[k].Reply?
    ensures Recorded(w')
  {
    forall t, i | t in w'.reigns && 0 < i < |w'.reigns[t].log| ensures Submitted(w', t, i) {
      assert Submitted(w, t, i);
      SubmittedGrows(w, w', t, i);
    }
    forall q, r | 0 <= q < |w'.history| && 0 <= r < |w'.history| ensures InSequence(w', q, r) {
      if q < |w.history| && r < |w.history| {
        assert InSequence(w, q, r) && EventOK(w, r);
        SequenceGrows(w, w', q, r);
      }
    }
  }

  /** An entry of term `t` lies in some leader's log only if it lies in that of term `t`. */
  lemma OwnLogHolds(w: World, log: Log, i: nat)
    requires GoodLog(w, log) && 0 < i < |log|
    ensures log[i].term in w.reigns && i < |w.reigns[log[i].term].log| && w.reigns[log[i].term].log[i] == log[i]
  {
    assert AnchoredAt(w, log, i);
  }

  // ---- Electing and proposing ----

  lemma ElectRecords(w: World, step: Step)
    requires Inv(w) && EventsOK(w) && Recorded(w) && Enabled(w, step) && step.Elect? && Grows(w, Do(w, step))
    ensures Recorded(Do(w, step))
  {
    var w', n := Do(w, step), step.n;
    var s, term := w.nodes[n], w.nodes[n].term;
    NodeParts(w, n);
    assert term !in w.reigns;
    forall t, i | t in w'.reigns && 0 < i < |w'.reigns[t].log| ensures Submitted(w', t, i) {
      if t != term {
        assert Submitted(w, t, i);
        SubmittedGrows(w, w', t, i);
      } else if i < |s.log| {
        OwnLogHolds(w, s.log, i);
      }
    }
    forall q, r | 0 <= q < |w'.history| && 0 <= r < |w'.history| ensures InSequence(w', q, r) {
      assert InSequence(w, q, r) && EventOK(w, r);
      SequenceGrows(w, w', q, r);
    }
  }

  /** The entry now proposed lies under no operation invoked before. */
  lemma ProposedIsLast(w: World, step: Step, r: nat)
    requires Inv(w) && EventsOK(w) && Enabled(w, step) && step.Propose? && Grows(w, Do(w, step))
    requires r < |w.history|
    ensures InSequence(Do(w, step), |w.history|, r)
  {
    var w', n := Do(w, step), step.n;
    var s := w.nodes[n];
    NodeParts(w, n);
    assert EventOK(w, r);
    var b := w.history[r];
    if b.Invoke? && b.term != s.term && |s.log| < |w.reigns[b.term].log| && w.reigns[b.term].log[|s.log|].term == s.term {
      assert ReignOK(w, b.term, w.reigns[b.term]);
      OwnLogHolds(w, w.reigns[b.term].log, |s.log|);
    }
  }

  lemma ProposedIsSubmitted(w: World, step: Step, t: nat, i: nat)
    requires Inv(w) && Recorded(w) && Enabled(w, step) && step.Propose? && Grows(w, Do(w, step))
    requires t in Do(w, step).reigns && 0 < i < |Do(w, step).reigns[t].log|
    ensures Submitted(Do(w, step), t, i)
  {
    var w', s := Do(w, step), w.nodes[step.n];
    NodeParts(w, step.n);
    hide Inv, LogPart, VotePart, CandidatePart;
    if t == s.term && i == |s.log| {
      assert InvokedAt(w', w'.reigns[t].log[i], |w.history|);
    } else {
      assert Submitted(w, t, i);
      SubmittedGrows(w, w', t, i);
    }
  }

  lemma ProposeRecords(w: World, step: Step)
    requires Inv(w) && EventsOK(w) && Recorded(w) && Enabled(w, step) && step.Propose? && Grows(w, Do(w, step))
    ensures Recorded(Do(w, step))
  {
    var w', k := Do(w, step), |w.history|;
    forall t, i | t in w'.reigns && 0 < i < |w'.reigns[t].log| ensures Submitted(w', t, i) {
      ProposedIsSubmitted(w, step, t, i);
    }
    hide Inv, Grows, Submitted;
    forall q, r | 0 <= q < |w'.history| && 0 <= r < |w'.history| ensures InSequence(w', q, r) {
      if q < k && r < k {
        assert InSequence(w, q, r) && EventOK(w, r);
        SequenceGrows(w, w', q, r);
      } else if r < k {
        ProposedIsLast(w, step, r);
      }
    }
  }

  lemma StepSpares(w: World, step: Step)
    requires Enabled(w, step) && !step.Elect? && !step.Propose?
    ensures var w' := Do(w, step);
            && w'.reigns == w.reigns && w.history <= w'.history
            && forall k :: |w.history| <= k < |w'.history| ==> w'.history[k].Reply?
  {
    hide Bumped, Elected, Registered, AcceptedNode, Reopened, Counted, Harmless, Grants, Acceptable, Solicitation, Window;
    if step.ApplyOne? {
      ApplyRecords(w, step);
    } else {
      OnlyStepperMoves(w, step);
    }
  }

  lemma StepKeepsRecorded(w: World, step: Step)
    requires Good(w) && Recorded(w) && Enabled(w, step)
    ensures Recorded(Do(w, step))
  {
    StepKeepsInv(w, step);
    if step.Elect? {
      ElectRecords(w, step);
    } else if step.Propose? {
      ProposeRecords(w, step);
    } else {
      StepSpares(w, step);
      RecordedInherits(w, Do(w, step));
    }
  }

  lemma NextKeepsRecorded(w: World, w': World)
    requires Good(w) && Recorded(w) && Next(w, w')
    ensures Recorded(w')
  {
    hide Inv, Served, Recorded;
    var step :| Enabled(w, step) && w' == Do(w, step);
    StepKeepsRecorded(w, step);
  }

  /** In every reachable state. */
  lemma {:induction false} RunIsRecorded(run: seq<World>, k: nat)
    requires IsRun(run) && k < |run|
    ensures Recorded(run[k])
  {
    if k > 0 {
      hide Inv, Served, Recorded, Next;
      RunIsRecorded(run, k - 1);
      RunIsGood(run, k - 1);
      assert StepAt(run, k);
      NextKeepsRecorded(run[k - 1], run[k]);
    }
  }
}
