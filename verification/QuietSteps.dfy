/** Steps that leave the shared history alone, and the voting steps. */
module QuietSteps {
  import opened RaftTypes
  import opened NodeModel
  import opened Cluster
  import opened Invariant
  import opened Preservation

  /** Only node `n`'s state, the network and the clients' history change. */
  ghost predicate Quiet(w: World, w': World, n: Id) {
    && n in w.nodes && n in w'.nodes
    && w' == w.(nodes := w.nodes[n := w'.nodes[n]], net := w'.net, history := w'.history)
    && w.net <= w'.net
    && w.nodes[n].term <= w'.nodes[n].term
  }

  lemma QuietGrows(w: World, w': World, n: Id)
    requires Quiet(w, w', n)
    ensures Grows(w, w') && OnlyAt(w, w', n)
    ensures w'.reigns == w.reigns && forall m, t :: Ack(w', m, t) == Ack(w, m, t)
  {
  }

  lemma QuietInherits(w: World, w': World, n: Id)
    requires Inv(w) && Quiet(w, w', n) && NodeOK(w', n, w'.nodes[n])
    requires forall m :: m in w'.net && m !in w.net ==> MessageOK(w', m)
    ensures Inv(w') && Grows(w, w')
  {
    QuietGrows(w, w', n);
    assert NewFacts(w, w', n) by {
      forall t | (n, t) in w'.acks ensures AckOK(w', n, t) {
        assert AckOK(w, n, t);
        assert TermOf(w, n) <= TermOf(w', n);
      }
    }
    Inherit(w, w', n);
  }

  /** Log, base and commit index as they were: the log parts of the invariant carry over. */
  lemma QuietLogParts(w: World, w': World, n: Id)
    requires Inv(w) && Quiet(w, w', n) && w'.nodes[n].log == w.nodes[n].log
    ensures var s, s' := w.nodes[n], w'.nodes[n];
            LogPart(w', s') && Kept(w', n, s'.log) && Covered(w', s'.term, s'.log, s.commit) && Stable(w', s'.log, s.base)
  {
    QuietGrows(w, w', n);
    LogParts(w, n);
    SameLogParts(w, w', n, w.nodes[n], w'.nodes[n]) by {
      ReignsWellFormed(w);
      SameReignsWellFormed(w, w');
    }
  }

  lemma SameReignsWellFormed(w: World, w': World)
    requires WellFormedReigns(w) && w'.reigns == w.reigns
    ensures WellFormedReigns(w')
  {
    forall t | t in w'.reigns ensures WellFormed(w'.reigns[t].log) {
      assert WellFormed(w.reigns[t].log);
    }
  }

  lemma LogParts(w: World, n: Id)
    requires NodesOK(w) && n in w.nodes
    ensures var s := w.nodes[n];
            LogPart(w, s) && Kept(w, n, s.log) && Covered(w, s.term, s.log, s.commit) && Stable(w, s.log, s.base)
  {
    assert NodeOK(w, n, w.nodes[n]);
  }

  /** The other parts of a node's invariant. */
  lemma NodeParts(w: World, n: Id)
    requires Inv(w) && n in w.nodes
    ensures var s := w.nodes[n];
            && n in w.members && w.nodes.Keys == w.members && Shaped(s) && !s.failed && LogPart(w, s)
            && VotePart(w, n, s) && CandidatePart(w, n, s) && LeaderPart(w, n, s)
  {
    assert NodeOK(w, n, w.nodes[n]);
  }

  lemma MessageFacts(w: World, m: Message)
    requires Inv(w) && m in w.net
    ensures MessageOK(w, m)
  {
  }

  /** A quiet step that leaves the log alone: what is left to show. */
  lemma QuietSettles(w: World, w': World, n: Id)
    requires Inv(w) && Quiet(w, w', n) && w'.net == w.net
    requires var s, s' := w.nodes[n], w'.nodes[n];
             && s'.log == s.log && Shaped(s') && !s'.failed
             && (s'.commit == s.commit || Covered(w', s'.term, s'.log, s'.commit))
             && (s'.base == s.base || Stable(w', s'.log, s'.base))
             && VotePart(w', n, s') && CandidatePart(w', n, s') && LeaderPart(w', n, s')
    ensures Inv(w') && Grows(w, w')
  {
    hide Inv, Grows;
    QuietLogParts(w, w', n);
    assert NodeOK(w', n, w'.nodes[n]);
    QuietInherits(w, w', n);
  }

  lemma NoFutureBallot(w: World, n: Id, t: nat)
    requires BallotsOK(w) && t > TermOf(w, n)
    ensures (n, t) !in w.ballots
  {
    assert (n, t) in w.ballots ==> BallotOK(w, n, t, w.ballots[(n, t)]);
  }

  lemma BumpStep(w: World, step: Step)
    requires Inv(w) && Enabled(w, step) && step.Bump?
    ensures Inv(Do(w, step)) && Grows(w, Do(w, step))
  {
    NoFutureBallot(w, step.n, step.term);
    hide Inv, Grows;
    NodeParts(w, step.n);
    QuietSettles(w, Do(w, step), step.n);
  }

  lemma LocalStep(w: World, step: Step)
    requires Inv(w) && Enabled(w, step) && step.Local?
    ensures Inv(Do(w, step)) && Grows(w, Do(w, step))
  {
    hide Inv, Grows;
    NodeParts(w, step.n);
    QuietSettles(w, Do(w, step), step.n);
  }

  lemma CountVoteStep(w: World, step: Step)
    requires Inv(w) && Enabled(w, step) && step.CountVote?
    ensures Inv(Do(w, step)) && Grows(w, Do(w, step))
  {
    hide Inv, Grows;
    NodeParts(w, step.n);
    MessageFacts(w, VoteRep(step.vreq, step.from, step.vresp));
    QuietSettles(w, Do(w, step), step.n);
  }

  lemma CountMatchStep(w: World, step: Step)
    requires Inv(w) && Enabled(w, step) && step.CountMatch?
    ensures Inv(Do(w, step)) && Grows(w, Do(w, step))
  {
    hide Inv, Grows;
    var n, w' := step.n, Do(w, step);
    NodeParts(w, n);
    MessageFacts(w, AppendRep(step.areq, step.from, step.aresp));
    var s, s' := w.nodes[n], w'.nodes[n];
    forall p | p in w'.members && p != n ensures MatchOf(s', p) <= Ack(w', p, s'.term) {
      assert MatchOf(s, p) <= Ack(w, p, s.term);
    }
    QuietSettles(w, w', n);
  }

  lemma ApplyStep(w: World, step: Step)
    requires Inv(w) && Enabled(w, step) && step.ApplyOne?
    ensures Inv(Do(w, step)) && Grows(w, Do(w, step))
  {
    hide Inv, Grows;
    ApplyNextFrame(w.nodes[step.n]);
    NodeParts(w, step.n);
    QuietSettles(w, Do(w, step), step.n);
  }

  /** Applying touches no hard state and nothing an election or a leader relies on. */
  lemma ApplyNextFrame(s: Node)
    requires Shaped(s) && s.applied < s.commit
    ensures var s' := ApplyNext(s);
            && s'.term == s.term && s'.vote == s.vote && s'.commit == s.commit && s'.base == s.base
            && s'.log == s.log && s'.role == s.role && s'.votes == s.votes && s'.matched == s.matched
            && s'.failed == s.failed && s'.snapshot == s.snapshot && s'.applied == s.applied + 1
  {
    hide ApplyEntry, Hear;
  }

  lemma ReopenStep(w: World, step: Step)
    requires Inv(w) && Enabled(w, step) && step.Reopen?
    ensures Inv(Do(w, step)) && Grows(w, Do(w, step))
  {
    hide Inv, Grows;
    NodeParts(w, step.n);
    QuietSettles(w, Do(w, step), step.n);
  }

  // ---- Sending ----

  lemma NetIsQuiet(w: World, w': World, n: Id)
    requires n in w.nodes && w'.net >= w.net && w' == w.(net := w'.net)
    ensures Quiet(w, w', n)
  {
    assert w'.nodes == w.nodes[n := w'.nodes[n]];
  }

  lemma NetGrows(w: World, w': World, n: Id, m: Message)
    requires Inv(w) && n in w.nodes && w' == w.(net := w.net + {m}) && MessageOK(w, m)
    ensures Inv(w') && Grows(w, w')
  {
    hide Inv, Grows, MessageOK, Quiet, Covered, Stable, Invariant.Kept;
    NetIsQuiet(w, w', n);
    QuietLogParts(w, w', n);
    NodeParts(w, n);
    assert NodeOK(w', n, w'.nodes[n]);
    QuietGrows(w, w', n);
    MessageGrows(w, w', m);
    QuietInherits(w, w', n);
  }

  lemma RefuseStep(w: World, step: Step)
    requires Inv(w) && Enabled(w, step) && step.Refuse?
    ensures Inv(Do(w, step)) && Grows(w, Do(w, step))
  {
    hide Inv, Grows;
    NetGrows(w, Do(w, step), step.n, step.reply);
  }

  lemma SendStep(w: World, step: Step)
    requires Inv(w) && Enabled(w, step) && step.Send?
    ensures Inv(Do(w, step)) && Grows(w, Do(w, step))
  {
    hide Inv, Grows, Covered;
    var req := Window(w, step.n, step.prev, step.count);
    NodeParts(w, step.n);
    CommittedIsCovered(w, step.n);
    NetGrows(w, Do(w, step), step.n, AppendReq(req));
  }

  lemma CommittedIsCovered(w: World, n: Id)
    requires Inv(w) && n in w.nodes
    ensures var s := w.nodes[n]; Covered(w, s.term, s.log, s.commit)
  {
    assert NodeOK(w, n, w.nodes[n]);
  }

  // ---- Commitment and compaction ----

  /** A leader that counts a majority at an entry of its own term rests on a real majority. */
  lemma CountedIsChosen(w: World, n: Id, index: nat)
    requires Inv(w) && n in w.nodes && w.nodes[n].role == Leader
    requires index < |w.nodes[n].log| && index > 0 && w.nodes[n].log[index].term == w.nodes[n].term
    requires Replicated(ConfigOf(w, n), w.nodes[n], index)
    ensures Chosen(w, w.nodes[n].term, index)
  {
    var s := w.nodes[n];
    assert NodeOK(w, n, s);
    var q := set p | p in w.members && (p == n || MatchOf(s, p) >= index);
    assert Stored(w, q, s.term, index);
  }

  lemma CommitIsCovered(w: World, w': World, n: Id, index: nat)
    requires Inv(w) && Quiet(w, w', n) && w'.nodes[n].log == w.nodes[n].log && w'.nodes[n].term == w.nodes[n].term
    requires w.nodes[n].role == Leader && 0 < index < |w.nodes[n].log| && w.nodes[n].log[index].term == w.nodes[n].term
    requires Replicated(ConfigOf(w, n), w.nodes[n], index)
    ensures Covered(w', w'.nodes[n].term, w'.nodes[n].log, index)
  {
    hide Inv, Replicated, Chosen;
    var s := w.nodes[n];
    CountedIsChosen(w, n, index);
    NodeParts(w, n);
    QuietGrows(w, w', n);
    ChosenGrows(w, w', s.term, index);
    assert CoveredBy(w', s.log, index, s.term, index);
  }

  lemma CommitStep(w: World, step: Step)
    requires Inv(w) && Enabled(w, step) && step.Commit?
    ensures Inv(Do(w, step)) && Grows(w, Do(w, step))
  {
    hide Inv, Grows, Covered, Replicated;
    var n, w' := step.n, Do(w, step);
    NodeParts(w, n);
    CommitIsCovered(w, w', n, step.index);
    QuietSettles(w, w', n);
  }

  lemma CompactedIsStable(w: World, w': World, n: Id)
    requires n in w.nodes && n in w'.nodes && w'.nodes[n].base == w'.nodes[n].commit == w.nodes[n].commit < |w.nodes[n].log|
    requires w'.reigns == w.reigns && w'.acks == w.acks && w'.members == w.members && w'.nodes[n].log == w.nodes[n].log
    requires w.nodes[n].role == Leader && LeaderPart(w, n, w.nodes[n])
    requires Covered(w', w.nodes[n].term, w.nodes[n].log, w.nodes[n].commit)
    requires forall p :: p in w.members && p != n ==> MatchOf(w.nodes[n], p) >= w.nodes[n].commit
    ensures Stable(w', w'.nodes[n].log, w'.nodes[n].base)
  {
    var s := w.nodes[n];
    if s.commit > 0 {
      forall m | m in w'.members ensures Ack(w', m, s.term) >= s.commit {
        assert m != n ==> MatchOf(s, m) <= Ack(w, m, s.term);
      }
      assert StableAt(w', s.log, s.commit, s.term);
    }
  }

  lemma CompactStep(w: World, step: Step)
    requires Inv(w) && Enabled(w, step) && step.Compact?
    ensures Inv(Do(w, step)) && Grows(w, Do(w, step))
  {
    hide Inv, Grows, Covered, Stable;
    var n, w' := step.n, Do(w, step);
    QuietLogParts(w, w', n);
    NodeParts(w, n);
    CompactedIsStable(w, w', n);
    QuietSettles(w, w', n);
  }
}
