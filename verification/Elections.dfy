/** Voting and winning: why a new leader's log holds everything that may still be chosen. */
module Elections {
  import opened Wrappers
  import opened RaftTypes
  import opened NodeModel
  import opened Cluster
  import opened Invariant
  import opened Preservation
  import opened QuietSteps

  lemma NoFutureCampaign(w: World, n: Id, t: nat)
    requires CampaignsOK(w) && t > TermOf(w, n)
    ensures (n, t) !in w.campaigns
  {
    assert (n, t) in w.campaigns ==> CampaignOK(w, n, t, w.campaigns[(n, t)]);
  }

  lemma NoFutureReign(w: World, n: Id, t: nat)
    requires ReignsOK(w) && t > TermOf(w, n) && t in w.reigns
    ensures w.reigns[t].leader != n
  {
    assert ReignOK(w, t, w.reigns[t]);
  }

  /** The step adds one ballot of node `n` in the term the node is in afterwards. */
  ghost predicate Votes(w: World, w': World, n: Id) {
    && n in w.nodes && n in w'.nodes
    && w' == w.(nodes := w.nodes[n := w'.nodes[n]], net := w'.net, ballots := w'.ballots, campaigns := w'.campaigns)
    && w.net <= w'.net && w.nodes[n].term <= w'.nodes[n].term && w'.nodes[n].log == w.nodes[n].log
    && var k := (n, w'.nodes[n].term);
       && k !in w.ballots && k in w'.ballots && w'.ballots == w.ballots[k := w'.ballots[k]]
       && w'.ballots[k].log == w.nodes[n].log
       && (w'.campaigns == w.campaigns || (k !in w.campaigns && k in w'.campaigns && w'.campaigns == w.campaigns[k := w'.campaigns[k]]))
  }

  lemma VotesGrow(w: World, w': World, n: Id)
    requires Votes(w, w', n)
    ensures Grows(w, w') && OnlyAt(w, w', n)
    ensures w'.reigns == w.reigns && forall m, t :: Ack(w', m, t) == Ack(w, m, t)
  {
  }

  lemma VoterLogParts(w: World, w': World, n: Id)
    requires Inv(w) && Votes(w, w', n)
    ensures var s, s' := w.nodes[n], w'.nodes[n];
            LogPart(w', s') && Kept(w', n, s'.log) && Covered(w', s'.term, s'.log, s.commit) && Stable(w', s'.log, s.base)
  {
    VotesGrow(w, w', n);
    LogParts(w, n);
    SameLogParts(w, w', n, w.nodes[n], w'.nodes[n]) by {
      ReignsWellFormed(w);
      SameReignsWellFormed(w, w');
    }
  }

  /** A ballot cast with an up-to-date candidate log records a voter's log that keeps what it must. */
  lemma FreshBallot(w: World, w': World, n: Id)
    requires Inv(w) && Votes(w, w', n)
    requires var s' := w'.nodes[n]; var b := w'.ballots[(n, s'.term)];
             && (b.candidate, s'.term) in w'.campaigns
             && |w'.campaigns[(b.candidate, s'.term)]| > 0 && |b.log| > 0
             && UpToDate(w'.campaigns[(b.candidate, s'.term)], b.log)
    ensures BallotOK(w', n, w'.nodes[n].term, w'.ballots[(n, w'.nodes[n].term)])
  {
    VoterLogParts(w, w', n);
    var b, t := w'.ballots[(n, w'.nodes[n].term)], w'.nodes[n].term;
    forall t1: nat, i: nat | t1 < t && Choosable(w', t1, i) && Ack(w', n, t1) >= i
      ensures Agree(w'.reigns[t1].log, b.log, i + 1)
    {
      assert t1 in w'.reigns && Least(i, Ack(w', n, t1)) == i;
    }
  }

  lemma VoteInherits(w: World, w': World, n: Id)
    requires Inv(w) && Votes(w, w', n) && NodeOK(w', n, w'.nodes[n])
    requires forall m :: m in w'.net && m !in w.net ==> MessageOK(w', m)
    requires BallotOK(w', n, w'.nodes[n].term, w'.ballots[(n, w'.nodes[n].term)])
    requires forall c, t :: (c, t) in w'.campaigns && (c, t) !in w.campaigns ==> CampaignOK(w', c, t, w'.campaigns[(c, t)])
    ensures Inv(w') && Grows(w, w')
  {
    VotesGrow(w, w', n);
    assert NewFacts(w, w', n) by {
      forall t | (n, t) in w'.acks ensures AckOK(w', n, t) {
        assert AckOK(w, n, t);
        assert TermOf(w, n) <= TermOf(w', n);
      }
    }
    Inherit(w, w', n);
  }

  lemma CampaignIsFresh(w: World, w': World, n: Id)
    requires Votes(w, w', n) && LogPart(w', w'.nodes[n]) && LogPart(w, w.nodes[n]) && n in w'.members
    requires w'.nodes[n].term == w.nodes[n].term + 1 && w'.campaigns == w.campaigns[(n, w'.nodes[n].term) := w.nodes[n].log]
    ensures forall c, t :: (c, t) in w'.campaigns && (c, t) !in w.campaigns ==> CampaignOK(w', c, t, w'.campaigns[(c, t)])
  {
  }

  lemma CampaignVotes(w: World, step: Step)
    requires Inv(w) && Enabled(w, step) && step.Campaign?
    ensures var n, w' := step.n, Do(w, step);
            var t, log := w.nodes[n].term + 1, w.nodes[n].log;
            && Votes(w, w', n) && w'.nodes[n].term == t && Shaped(w'.nodes[n]) && w'.nodes[n].commit == w.nodes[n].commit
            && w'.nodes[n].base == w.nodes[n].base && w'.nodes[n].failed == w.nodes[n].failed
            && w'.campaigns == w.campaigns[(n, t) := log] && w'.ballots[(n, t)] == Ballot(n, log)
            && (t in w.reigns ==> w.reigns[t].leader != n)
  {
    var n, t := step.n, w.nodes[step.n].term + 1;
    NoFutureBallot(w, n, t);
    NoFutureCampaign(w, n, t);
    if t in w.reigns {
      NoFutureReign(w, n, t);
    }
  }

  lemma CampaignRoles(w: World, step: Step)
    requires Enabled(w, step) && step.Campaign? && step.n in w.members
    requires var t := w.nodes[step.n].term + 1; t in w.reigns ==> w.reigns[t].leader != step.n
    ensures var n, w' := step.n, Do(w, step);
            && VotePart(w', n, w'.nodes[n]) && CandidatePart(w', n, w'.nodes[n]) && LeaderPart(w', n, w'.nodes[n])
            && forall m :: m in w'.net && m !in w.net ==> MessageOK(w', m)
  {
  }

  lemma CampaignStep(w: World, step: Step)
    requires Inv(w) && Enabled(w, step) && step.Campaign?
    ensures Inv(Do(w, step)) && Grows(w, Do(w, step))
  {
    hide Inv, Grows, Covered, Stable, Kept, MessageOK, VotePart, CandidatePart, LeaderPart;
    var n, w' := step.n, Do(w, step);
    NodeParts(w, n);
    CampaignVotes(w, step);
    CampaignRoles(w, step);
    hide Do, Votes;
    VoterLogParts(w, w', n);
    CampaignIsFresh(w, w', n);
    assert NodeOK(w', n, w'.nodes[n]);
    FreshBallot(w, w', n);
    VoteInherits(w, w', n);
  }

  lemma GrantVotes(w: World, step: Step)
    requires Inv(w) && Enabled(w, step) && step.Grant? && w.nodes[step.n].vote == None
    ensures Votes(w, Do(w, step), step.n)
  {
    assert NodeOK(w, step.n, w.nodes[step.n]);
  }

  lemma GrantBallot(w: World, step: Step)
    requires Inv(w) && Enabled(w, step) && step.Grant? && w.nodes[step.n].vote == None
    ensures var w' := Do(w, step); BallotOK(w', step.n, w'.nodes[step.n].term, w'.ballots[(step.n, w'.nodes[step.n].term)])
  {
    GrantVotes(w, step);
    assert MessageOK(w, VoteReq(step.vreq));
    FreshBallot(w, Do(w, step), step.n);
  }

  lemma GrantRoles(w: World, step: Step)
    requires Enabled(w, step) && step.Grant? && w.nodes[step.n].vote == None
    requires VotePart(w, step.n, w.nodes[step.n]) && CandidatePart(w, step.n, w.nodes[step.n]) && LeaderPart(w, step.n, w.nodes[step.n])
    ensures var w', n := Do(w, step), step.n;
            VotePart(w', n, w'.nodes[n]) && CandidatePart(w', n, w'.nodes[n]) && LeaderPart(w', n, w'.nodes[n])
  {
  }

  lemma GrantNode(w: World, step: Step)
    requires Inv(w) && Enabled(w, step) && step.Grant? && w.nodes[step.n].vote == None
    ensures NodeOK(Do(w, step), step.n, Do(w, step).nodes[step.n])
  {
    VoterLogParts(w, Do(w, step), step.n) by {
      GrantVotes(w, step);
    }
    assert NodeOK(w, step.n, w.nodes[step.n]);
    GrantRoles(w, step);
  }

  lemma FirstGrant(w: World, step: Step)
    requires Inv(w) && Enabled(w, step) && step.Grant? && w.nodes[step.n].vote == None
    ensures Inv(Do(w, step)) && Grows(w, Do(w, step))
  {
    GrantVotes(w, step);
    GrantBallot(w, step);
    GrantNode(w, step);
    VoteInherits(w, Do(w, step), step.n);
  }

  /** Granting the same vote again only repeats the message. */
  lemma RepeatedGrant(w: World, step: Step)
    requires Inv(w) && Enabled(w, step) && step.Grant? && w.nodes[step.n].vote != None
    ensures Inv(Do(w, step)) && Grows(w, Do(w, step))
  {
    var n, w' := step.n, Do(w, step);
    var s, reply := w.nodes[n], VoteRep(step.vreq, step.n, VoteResponse(w.nodes[step.n].term, true));
    assert s.(vote := Some(step.vreq.candidate)) == s;
    assert w.nodes[n := s] == w.nodes;
    assert MessageOK(w, reply) by {
      assert NodeOK(w, n, s);
    }
    NetGrows(w, w', n, reply);
  }

  lemma GrantStep(w: World, step: Step)
    requires Inv(w) && Enabled(w, step) && step.Grant?
    ensures Inv(Do(w, step)) && Grows(w, Do(w, step))
  {
    if w.nodes[step.n].vote == None {
      FirstGrant(w, step);
    } else {
      RepeatedGrant(w, step);
    }
  }

  // ---- Winning ----

  /** A candidate with a majority is the first and only leader of its term. */
  lemma TermIsFree(w: World, n: Id)
    requires Inv(w) && n in w.nodes && w.nodes[n].role == Candidate
    requires Majority(w.nodes[n].votes, w.members)
    ensures w.nodes[n].term !in w.reigns
  {
    var s := w.nodes[n];
    assert NodeOK(w, n, s);
    if s.term in w.reigns {
      assert ReignOK(w, s.term, w.reigns[s.term]);
      var v := MajoritiesMeet(s.votes, w.reigns[s.term].voters, w.members);
    }
  }

  /** The up-to-date comparison transfers a prefix from the voter's log to the candidate's. */
  lemma FresherLogHolds(w: World, cand: Log, voter: Log, t1: nat, i: nat)
    requires LeaderCompleteness(w) && Choosable(w, t1, i) && WellFormedReigns(w)
    requires GoodLog(w, cand) && GoodLog(w, voter) && UpToDate(cand, voter)
    requires Agree(w.reigns[t1].log, voter, i + 1)
    ensures Agree(w.reigns[t1].log, cand, i + 1)
  {
    var c, v := |cand| - 1, |voter| - 1;
    assert voter[i].term == t1 && voter[i].term <= voter[v].term;
    assert c > 0;
    assert AnchoredAt(w, cand, c);
    var t2 := cand[c].term;
    if t2 > LastTerm(voter) {
      assert Agree(w.reigns[t1].log, w.reigns[t2].log, i + 1);
      assert WellFormed(w.reigns[t2].log);
      assert w.reigns[t2].log[c].term == t2 > w.reigns[t2].log[i].term;
      assert i < c;
    } else {
      assert AnchoredAt(w, voter, v);
    }
  }

  /** Whatever may still be chosen in an earlier term is in the winner's log. */
  lemma WinnerHolds(w: World, n: Id, t1: nat, i: nat)
    requires Inv(w) && n in w.nodes && w.nodes[n].role == Candidate
    requires Majority(w.nodes[n].votes, w.members)
    requires t1 < w.nodes[n].term && Choosable(w, t1, i)
    ensures Agree(w.reigns[t1].log, w.nodes[n].log, i + 1)
  {
    var s := w.nodes[n];
    assert NodeOK(w, n, s);
    var q :| MayStore(w, q, t1, i);
    var v := MajoritiesMeet(q, s.votes, w.members);
    var b := w.ballots[(v, s.term)];
    assert BallotOK(w, v, s.term, b);
    assert CanHold(w, v, t1, i);
    assert Agree(w.reigns[t1].log, b.log, i + 1);
    FresherLogHolds(w, s.log, b.log, t1, i) by {
      ReignsWellFormed(w);
    }
  }
}
