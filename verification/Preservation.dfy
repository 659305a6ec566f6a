/** One step at one node: what the step leaves alone stays as the invariant says, so each step has
    only its own new facts to prove. */
module Preservation {
  import opened RaftTypes
  import opened NodeModel
  import opened Cluster
  import opened Invariant

  /** The step is at node `n`: other nodes, their ballots and acknowledgements, and the reigns of
      other leaders are untouched. */
  ghost predicate OnlyAt(w: World, w': World, n: Id) {
    && n in w.nodes && w'.nodes.Keys == w.nodes.Keys
    && (forall m :: m in w.nodes && m != n ==> w'.nodes[m] == w.nodes[m])
    && (forall m, t :: m != n ==> Ack(w', m, t) == Ack(w, m, t))
    && (forall m, t :: (m, t) in w'.ballots && m != n ==> (m, t) in w.ballots)
    && (forall t :: t in w'.reigns ==> (t in w.reigns && w'.reigns[t] == w.reigns[t]) || w'.reigns[t].leader == n)
  }

  ghost predicate WellFormedReigns(w: World) {
    forall t {:trigger WellFormed(w.reigns[t].log)} :: t in w.reigns ==> WellFormed(w.reigns[t].log)
  }

  lemma NodeGrows(w: World, w': World, n: Id, m: Id)
    requires Inv(w) && Grows(w, w') && OnlyAt(w, w', n) && WellFormedReigns(w')
    requires m in w.nodes && m != n
    ensures NodeOK(w', m, w'.nodes[m])
  {
    var s := w.nodes[m];
    assert NodeOK(w, m, s);
    SameLogParts(w, w', m, s, s);
    VotesGrow(w, w', n, m, s);
    LeadershipGrows(w, w', n, m, s);
  }

  /** The parts of a node's invariant about its log survive when log, base and commit index do. */
  lemma SameLogParts(w: World, w': World, m: Id, s: Node, s': Node)
    requires ReignsOK(w) && BallotsOK(w) && AcksOK(w) && Grows(w, w') && WellFormedReigns(w')
    requires LogPart(w, s) && Kept(w, m, s.log) && Covered(w, s.term, s.log, s.commit) && Stable(w, s.log, s.base)
    requires s'.log == s.log && s'.term >= s.term
    requires forall t :: Ack(w', m, t) == Ack(w, m, t)
    ensures LogPart(w', s') && Kept(w', m, s'.log)
    ensures Covered(w', s'.term, s'.log, s.commit) && Stable(w', s'.log, s.base)
  {
    GoodLogGrows(w, w', s.log);
    KeptGrows(w, w', m, s.log);
    CoveredGrows(w, w', s.term, s'.term, s.log, s'.log, s.commit);
    StableGrows(w, w', s.log, s'.log, s.base);
  }

  lemma VotesGrow(w: World, w': World, n: Id, m: Id, s: Node)
    requires Grows(w, w') && OnlyAt(w, w', n) && m != n
    requires VotePart(w, m, s) && CandidatePart(w, m, s)
    ensures VotePart(w', m, s) && CandidatePart(w', m, s)
  {
  }

  lemma LeadershipGrows(w: World, w': World, n: Id, m: Id, s: Node)
    requires Grows(w, w') && OnlyAt(w, w', n) && m != n && LeaderPart(w, m, s)
    ensures LeaderPart(w', m, s)
  {
    if s.role == Leader {
      forall p | p in w'.members && p != m ensures MatchOf(s, p) <= Ack(w', p, s.term) {
        assert MatchOf(s, p) <= Ack(w, p, s.term);
      }
    }
  }

  lemma MessageGrows(w: World, w': World, m: Message)
    requires Grows(w, w') && MessageOK(w, m)
    ensures MessageOK(w', m)
  {
    if m.AppendReq? {
      var t := m.areq.term;
      assert Agree(w.reigns[t].log, w'.reigns[t].log, |w.reigns[t].log|);
      CoveredGrows(w, w', t, t, w.reigns[t].log, w'.reigns[t].log, m.areq.leaderCommit);
    } else if m.AppendRep? {
      assert Ack(w, m.from, m.areq.term) <= Ack(w', m.from, m.areq.term);
    }
  }

  lemma ReignGrows(w: World, w': World, t: nat)
    requires Grows(w, w') && t in w.reigns && ReignOK(w, t, w.reigns[t])
    requires w'.reigns[t] == w.reigns[t]
    ensures ReignOK(w', t, w'.reigns[t])
  {
    GoodLogGrows(w, w', w.reigns[t].log);
    assert TermOf(w, w.reigns[t].leader) <= TermOf(w', w.reigns[t].leader);
  }

  lemma CampaignGrows(w: World, w': World, c: Id, t: nat)
    requires Grows(w, w') && (c, t) in w.campaigns && CampaignOK(w, c, t, w.campaigns[(c, t)])
    ensures CampaignOK(w', c, t, w'.campaigns[(c, t)])
  {
    GoodLogGrows(w, w', w.campaigns[(c, t)]);
    assert TermOf(w, c) <= TermOf(w', c);
  }

  lemma BallotGrows(w: World, w': World, v: Id, t: nat)
    requires Grows(w, w') && AcksOK(w) && (v, t) in w.ballots && BallotOK(w, v, t, w.ballots[(v, t)])
    ensures BallotOK(w', v, t, w'.ballots[(v, t)])
  {
    var b := w.ballots[(v, t)];
    GoodLogGrows(w, w', b.log);
    assert TermOf(w, v) <= TermOf(w', v);
    forall t1: nat, i: nat | t1 < t && Choosable(w', t1, i) && Ack(w', v, t1) >= i
      ensures Agree(w'.reigns[t1].log, b.log, i + 1)
    {
      AckBound(w, v, t1);
      ChoosableShrinks(w, w', t1, i);
      assert Agree(w.reigns[t1].log, b.log, i + 1);
      assert Agree(w.reigns[t1].log, w'.reigns[t1].log, |w.reigns[t1].log|);
    }
  }

  /** The new facts a step has to establish; everything else is inherited. */
  ghost predicate NewFacts(w: World, w': World, n: Id) {
    && n in w'.nodes && NodeOK(w', n, w'.nodes[n])
    && (forall m :: m in w'.net && m !in w.net ==> MessageOK(w', m))
    && (forall t :: t in w'.reigns && !(t in w.reigns && w'.reigns[t] == w.reigns[t]) ==> ReignOK(w', t, w'.reigns[t]))
    && (forall v, t :: (v, t) in w'.ballots && (v, t) !in w.ballots ==> BallotOK(w', v, t, w'.ballots[(v, t)]))
    && (forall c, t :: (c, t) in w'.campaigns && (c, t) !in w.campaigns ==> CampaignOK(w', c, t, w'.campaigns[(c, t)]))
    && (forall t :: (n, t) in w'.acks ==> AckOK(w', n, t))
    && (forall m, t :: (m, t) in w'.acks && m != n ==> (m, t) in w.acks)
    && (forall t1: nat, i: nat, t2: nat :: t1 < t2 && t2 in w'.reigns && t2 !in w.reigns && Choosable(w', t1, i)
          ==> Agree(w'.reigns[t1].log, w'.reigns[t2].log, i + 1))
  }

  lemma Inherit(w: World, w': World, n: Id)
    requires Inv(w) && Grows(w, w') && OnlyAt(w, w', n) && NewFacts(w, w', n)
    ensures Inv(w')
  {
    assert ReignsOK(w') by {
      forall t | t in w'.reigns ensures ReignOK(w', t, w'.reigns[t]) {
        if t in w.reigns && w'.reigns[t] == w.reigns[t] {
          ReignGrows(w, w', t);
        }
      }
    }
    ReignsWellFormed(w');
    InheritNodes(w, w', n);
    InheritShared(w, w', n);
    InheritCompleteness(w, w', n);
  }

  lemma ReignsWellFormed(w: World)
    requires ReignsOK(w)
    ensures WellFormedReigns(w)
  {
    forall t | t in w.reigns ensures WellFormed(w.reigns[t].log) {
      assert ReignOK(w, t, w.reigns[t]);
    }
  }

  lemma InheritNodes(w: World, w': World, n: Id)
    requires Inv(w) && Grows(w, w') && OnlyAt(w, w', n) && WellFormedReigns(w') && NodeOK(w', n, w'.nodes[n])
    ensures NodesOK(w')
  {
    forall m | m in w'.nodes ensures NodeOK(w', m, w'.nodes[m]) {
      if m != n {
        NodeGrows(w, w', n, m);
      }
    }
  }

  lemma InheritShared(w: World, w': World, n: Id)
    requires Inv(w) && Grows(w, w') && OnlyAt(w, w', n) && NewFacts(w, w', n)
    ensures MessagesOK(w') && BallotsOK(w') && CampaignsOK(w') && AcksOK(w')
  {
    forall m | m in w'.net ensures MessageOK(w', m) {
      if m in w.net {
        MessageGrows(w, w', m);
      }
    }
    forall v, t | (v, t) in w'.ballots ensures BallotOK(w', v, t, w'.ballots[(v, t)]) {
      if (v, t) in w.ballots {
        BallotGrows(w, w', v, t);
      }
    }
    forall c, t | (c, t) in w'.campaigns ensures CampaignOK(w', c, t, w'.campaigns[(c, t)]) {
      if (c, t) in w.campaigns {
        CampaignGrows(w, w', c, t);
      }
    }
    forall m, t | (m, t) in w'.acks ensures AckOK(w', m, t) {
      if m != n {
        assert AckOK(w, m, t);
        assert Agree(w.reigns[t].log, w'.reigns[t].log, |w.reigns[t].log|);
        assert TermOf(w, m) <= TermOf(w', m);
      }
    }
  }

  lemma InheritCompleteness(w: World, w': World, n: Id)
    requires Inv(w) && Grows(w, w') && OnlyAt(w, w', n) && NewFacts(w, w', n)
    ensures LeaderCompleteness(w')
  {
    forall t1: nat, i: nat, t2: nat | t1 < t2 && Choosable(w', t1, i) && t2 in w'.reigns
      ensures Agree(w'.reigns[t1].log, w'.reigns[t2].log, i + 1)
    {
      if t2 in w.reigns {
        CompletenessGrows(w, w', t1, i, t2);
      }
    }
  }
}
