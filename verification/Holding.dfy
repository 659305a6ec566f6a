/** While a node stays in a term, it goes on holding what it acknowledged to that term's leader. */
module Holding {
  import opened RaftTypes
  import opened NodeModel
  import opened Cluster
  import opened Invariant
  import opened Preservation
  import opened QuietSteps
  import opened Replication
  import opened History
  import opened Safety

  ghost predicate HoldsAcks(w: World, p: Id) {
    p in w.nodes &&
    var t := w.nodes[p].term;
    t in w.reigns ==> Agree(w.nodes[p].log, w.reigns[t].log, Ack(w, p, t) + 1)
  }

  ghost predicate AllHold(w: World) {
    forall p {:trigger HoldsAcks(w, p)} :: p in w.nodes ==> HoldsAcks(w, p)
  }

  lemma SentinelsAgree(w: World, p: Id, t: nat)
    requires Inv(w) && p in w.nodes && t in w.reigns
    ensures Agree(w.nodes[p].log, w.reigns[t].log, 1)
  {
    LogParts(w, p);
    ReignsWellFormed(w);
    assert WellFormed(w.reigns[t].log);
  }

  /** Neither the node's term, nor its acknowledgement, nor what it acknowledged has changed. */
  lemma Unmoved(w: World, w': World, p: Id)
    requires Inv(w) && Inv(w') && Grows(w, w') && HoldsAcks(w, p) && p in w'.nodes
    requires w'.nodes[p].term == w.nodes[p].term && Ack(w', p, w.nodes[p].term) == Ack(w, p, w.nodes[p].term)
    requires w'.nodes[p].log == w.nodes[p].log
    ensures HoldsAcks(w', p)
  {
    var t := w.nodes[p].term;
    AckBound(w, p, t);
    if t in w.reigns {
      assert Agree(w.reigns[t].log, w'.reigns[t].log, |w.reigns[t].log|);
    } else if t in w'.reigns {
      SentinelsAgree(w', p, t);
    }
  }

  lemma EntersTerm(w: World, w': World, p: Id)
    requires Inv(w) && Inv(w') && Grows(w, w') && p in w.nodes && p in w'.nodes
    requires w'.nodes[p].term > w.nodes[p].term && Ack(w', p, w'.nodes[p].term) == Ack(w, p, w'.nodes[p].term)
    ensures HoldsAcks(w', p)
  {
    AckBound(w, p, w'.nodes[p].term);
    if w'.nodes[p].term in w'.reigns {
      SentinelsAgree(w', p, w'.nodes[p].term);
    }
  }

  lemma LeadsTerm(w': World, p: Id)
    requires Inv(w') && p in w'.nodes && w'.nodes[p].role == Leader
    ensures HoldsAcks(w', p)
  {
    assert NodeOK(w', p, w'.nodes[p]);
  }

  lemma Accepts(w: World, n: Id, req: AppendRequest)
    requires Inv(w) && HoldsAcks(w, n) && AppendReq(req) in w.net && req.term == w.nodes[n].term
    requires Acceptable(w.nodes[n], req)
    ensures HoldsAcks(DoAccept(w, n, req), n)
  {
    var s, s', t := w.nodes[n], AcceptedNode(w.nodes[n], req), req.term;
    RequestFacts(w, req);
    AcceptedParts(w, n, req);
    AcceptAcks(w, n, req);
    var r, a := w.reigns[t].log, Ack(w, n, t) + 1;
    assert Agree(r, s.log, a) && Agree(r, r, a);
    assert Agree(r, s'.log, a);
  }

  lemma StepKeepsAllHold(w: World, step: Step)
    requires Inv(w) && AllHold(w) && Enabled(w, step)
    ensures AllHold(Do(w, step))
  {
    var w', n := Do(w, step), step.n;
    StepKeepsInv(w, step);
    forall p | p in w'.nodes ensures HoldsAcks(w', p) {
      assert HoldsAcks(w, p);
      if p == n && w'.nodes[n].role == Leader {
        LeadsTerm(w', n);
      } else if p == n && step.Accept? {
        Accepts(w, n, step.areq);
      } else if p == n && (step.Bump? || step.Campaign?) {
        EntersTerm(w, w', n);
      } else {
        StepLeaves(w, step, p);
        Unmoved(w, w', p);
      }
    }
  }

  lemma StepLeaves(w: World, step: Step, p: Id)
    requires Enabled(w, step) && p in w.nodes
    requires p != step.n || (Do(w, step).nodes[p].role != Leader && !step.Accept? && !step.Bump? && !step.Campaign?)
    ensures var w', t := Do(w, step), w.nodes[p].term;
            && p in w'.nodes && w'.nodes[p].term == t && w'.nodes[p].log == w.nodes[p].log && Ack(w', p, t) == Ack(w, p, t)
  {
    hide Bumped, AcceptedNode, Grants, Acceptable, Solicitation, Window, ApplyEntry, Hear, Replicated;
    if step.ApplyOne? {
      ApplyNextFrame(w.nodes[step.n]);
    }
  }

  lemma NextKeepsAllHold(w: World, w': World)
    requires Inv(w) && AllHold(w) && Next(w, w')
    ensures AllHold(w')
  {
    hide Inv, AllHold;
    var step :| Enabled(w, step) && w' == Do(w, step);
    StepKeepsAllHold(w, step);
  }

  lemma {:induction false} RunHolds(run: seq<World>, k: nat)
    requires IsRun(run) && k < |run|
    ensures AllHold(run[k])
  {
    if k == 0 {
      InitIsGood(run[0]);
    } else {
      hide Inv, Served, AllHold, Next;
      RunHolds(run, k - 1);
      RunIsGood(run, k - 1);
      assert StepAt(run, k);
      NextKeepsAllHold(run[k - 1], run[k]);
    }
  }

  /** In every reachable state, a follower still in a leader's term holds everything that the leader counts
      for it. */
  lemma MatchIsHeld(run: seq<World>, k: nat, n: Id, p: Id)
    requires IsRun(run) && k < |run| && n in run[k].nodes && p in run[k].members && p != n
    requires run[k].nodes[n].role == Leader
    ensures p in run[k].nodes
    ensures run[k].nodes[p].term <= run[k].nodes[n].term ==>
              Agree(run[k].nodes[p].log, run[k].nodes[n].log, MatchOf(run[k].nodes[n], p) + 1)
  {
    RunIsGood(run, k);
    RunHolds(run, k);
    HeldMatch(run[k], n, p);
  }

  lemma HeldMatch(w: World, n: Id, p: Id)
    requires Inv(w) && AllHold(w) && n in w.nodes && p in w.members && p != n && w.nodes[n].role == Leader
    ensures p in w.nodes
    ensures w.nodes[p].term <= w.nodes[n].term ==> Agree(w.nodes[p].log, w.nodes[n].log, MatchOf(w.nodes[n], p) + 1)
  {
    var t := w.nodes[n].term;
    assert NodeOK(w, n, w.nodes[n]) && HoldsAcks(w, p);
    if w.nodes[p].term <= t {
      AckBound(w, p, t);
      SentinelsAgree(w, p, t);
    }
  }
}
