/** What holds between any two calls of a run made of genuine calls: no leader has left anything to commit or to
    compact that it could have, whoever a node names as leader leads its term, nobody who waits is forgotten, and nobody is told
    twice. */
module Promises {
  import opened Wrappers
  import opened RaftTypes
  import opened NodeModel
  import opened Cluster
  import opened Invariant
  import opened Safety
  import opened Chains
  import opened Handlers
  import opened Simulation
  import opened Effects
  import opened Calls
  import opened Committing
  import opened Replies
  import SM = StateMachine
  import St = Store

  // ---- Committing ----

  ghost predicate CommittedAll(cfg: Config, s: Node) {
    s.role == Leader ==> NothingCommittable(cfg, s) && !Due(cfg, s)
  }

  /** Neither the log nor what is known of the others has changed, nor what is compacted. */
  lemma SameProgress(cfg: Config, s: Node, s': Node)
    requires CommittedAll(cfg, s) && s'.log == s.log && s'.term == s.term && s'.commit == s.commit && s'.matched == s.matched
    requires s'.base == s.base
    requires s'.role == Leader ==> s.role == Leader
    ensures CommittedAll(cfg, s')
  {
    if s'.role == Leader {
      forall k: nat ensures !Committable(cfg, s', k) {
        assert !Committable(cfg, s, k) && Holding(cfg, s', k) == Holding(cfg, s, k);
      }
    }
  }

  lemma ElectedCommitsAll(cfg: Config, s: Node)
    requires Savable(s) && Available(s) && s.term > 0 && !BecomeLeader(cfg, s).failed && cfg.self in cfg.members
    ensures CommittedAll(cfg, BecomeLeader(cfg, s))
  {
    hide LeaderAppend, BecomeLeader, AdvanceCommit;
    OwnEntrySaves(cfg, Crowned(cfg, s), None);
    OpeningEntryElects(cfg, s);
    var e := Elected(cfg, s);
    CommitsAllItCan(cfg, e);
    CommittingCompacts(cfg, e);
    if Due(cfg, AdvanceCommit(cfg, e)) {
      AloneCommits(cfg, s);
    }
  }

  /** A new leader that nobody lags behind is alone, and can commit its opening entry. */
  lemma AloneCommits(cfg: Config, s: Node)
    requires Shaped(s) && cfg.self in cfg.members && Due(cfg, Elected(cfg, s))
    ensures Committable(cfg, Elected(cfg, s), |s.log|)
  {
    var e := Elected(cfg, s);
    forall p | p in cfg.members ensures p == cfg.self {
      assert p == cfg.self || MatchOf(e, p) == 0;
    }
    assert Holding(cfg, e, |s.log|) == {cfg.self} == cfg.members;
  }

  lemma TimeoutCommitsAll(cfg: Config, s: Node)
    requires Savable(s) && CommittedAll(cfg, s) && !Timeout(cfg, s).0.failed && cfg.self in cfg.members
    ensures CommittedAll(cfg, Timeout(cfg, s).0)
  {
    hide BecomeLeader, CommittedAll;
    if Available(s) && s.role != Leader {
      HardStateSaves(cfg, s, s.term + 1, Some(cfg.self), s.commit);
      var s1 := Campaigning(cfg, s);
      if |s1.votes| > |cfg.members| / 2 {
        ElectedCommitsAll(cfg, s1);
      } else {
        NotLeading(cfg, s1);
      }
    }
  }

  lemma NotLeading(cfg: Config, s: Node)
    requires s.role != Leader
    ensures CommittedAll(cfg, s)
  {
  }

  lemma VoteCommitsAll(cfg: Config, s: Node, req: VoteRequest)
    requires Savable(s) && CommittedAll(cfg, s)
    ensures CommittedAll(cfg, HandleVote(cfg, s, req).0)
  {
    hide CommittedAll, Persist, StepDown;
    var s' := HandleVote(cfg, s, req).0;
    VoteAnswers(cfg, s, req);
    if s'.role == Leader {
      HardStateOnly(cfg, s, req.term, Some(req.candidate), s.commit);
      SameProgress(cfg, s, s');
    } else {
      NotLeading(cfg, s');
    }
  }

  lemma VoteReplyCommitsAll(cfg: Config, s: Node, from: Id, req: VoteRequest, resp: VoteResponse)
    requires Savable(s) && CommittedAll(cfg, s) && (s.role == Candidate ==> s.term > 0)
    requires !HandleVoteResponse(cfg, s, from, req, resp).failed && cfg.self in cfg.members
    ensures CommittedAll(cfg, HandleVoteResponse(cfg, s, from, req, resp))
  {
    hide CommittedAll, BecomeLeader, StepDown;
    var s', s1 := HandleVoteResponse(cfg, s, from, req, resp), s.(votes := s.votes + {from});
    if Available(s) {
      VoteCounts(cfg, s, from, req, resp);
      if s'.role != Leader {
        NotLeading(cfg, s');
      } else if s' == BecomeLeader(cfg, s1) && s.role == Candidate {
        ElectedCommitsAll(cfg, s1);
      }
    }
  }

  lemma AppendCommitsAll(cfg: Config, s: Node, req: AppendRequest)
    requires Savable(s) && CommittedAll(cfg, s) && !HandleAppend(cfg, s, req).0.failed
    ensures CommittedAll(cfg, HandleAppend(cfg, s, req).0)
  {
    hide HandleAppend, CommittedAll;
    AppendAnswers(cfg, s, req);
    if Answers(cfg, s, req.leader, req.cluster) && req.term >= s.term {
      NotLeading(cfg, HandleAppend(cfg, s, req).0);
    }
  }

  lemma SnapshotCommitsAll(cfg: Config, s: Node)
    requires Shaped(s) && (s.role == Leader ==> s.applied == s.commit) && !MaybeSnapshot(cfg, s).failed
    requires s.role == Leader ==> NothingCommittable(cfg, s)
    ensures CommittedAll(cfg, MaybeSnapshot(cfg, s))
  {
    hide MaybeSnapshot, Due;
    var s' := MaybeSnapshot(cfg, s);
    CompactsWhenDue(cfg, s);
    forall k: nat | s'.role == Leader ensures !Committable(cfg, s', k) {
      assert !Committable(cfg, s, k) && Holding(cfg, s', k) == Holding(cfg, s, k);
    }
  }

  lemma AppendReplyCommitsAll(cfg: Config, s: Node, from: Id, req: AppendRequest, resp: AppendResponse)
    requires Savable(s) && CommittedAll(cfg, s) && s.applied == s.commit
    requires !HandleAppendResponse(cfg, s, from, req, resp).failed
    ensures CommittedAll(cfg, HandleAppendResponse(cfg, s, from, req, resp))
  {
    hide CommittedAll, AdvanceCommit, MaybeSnapshot, StepDown;
    var s' := HandleAppendResponse(cfg, s, from, req, resp);
    if Available(s) && resp.term > s.term {
      LaterAnswerDeposes(cfg, s, from, req, resp);
      NotLeading(cfg, s');
    } else if Available(s) && s.role == Leader && s.term == req.term == resp.term && resp.success {
      var s0 := Counted(s, from, req.prevLogIndex + |req.entries|);
      AdvanceCommitSettles(cfg, s0);
      if AdvanceCommit(cfg, s0).failed {
        FailureSticks(cfg, AdvanceCommit(cfg, s0));
      }
      CommitsAllItCan(cfg, s0);
      SnapshotCommitsAll(cfg, AdvanceCommit(cfg, s0));
    } else {
      SameProgress(cfg, s, s');
    }
  }

  lemma LeaderCommitsAll(cfg: Config, s: Node)
    requires Shaped(s) && s.role == Leader && Available(s) && !AdvanceCommit(cfg, s).failed && !Due(cfg, s)
    ensures CommittedAll(cfg, AdvanceCommit(cfg, s))
  {
    hide AdvanceCommit, Due;
    CommitsAllItCan(cfg, s);
    CommittingCompacts(cfg, s);
  }

  lemma SubmitCommitsAll(cfg: Config, s: Node, command: Option<SM.Command>, readKey: Option<SM.Text>, ticket: nat)
    requires Shaped(s) && CommittedAll(cfg, s) && !Submit(cfg, s, command, readKey, ticket).0.failed
    ensures CommittedAll(cfg, Submit(cfg, s, command, readKey, ticket).0)
  {
    hide CommittedAll, AdvanceCommit, LeaderAppend;
    if Submit(cfg, s, command, readKey, ticket).2.None? {
      OwnAppendLeads(cfg, s, command);
      RegisteringIsNotDue(cfg, s, command, Waiter(ticket, readKey));
      LeaderCommitsAll(cfg, Registered(cfg, LeaderAppend(cfg, s, command), Waiter(ticket, readKey)));
    }
  }

  lemma RegisteringIsNotDue(cfg: Config, s: Node, command: Option<SM.Command>, w: Waiter)
    requires Shaped(s) && s.role == Leader && CommittedAll(cfg, s) && !LeaderAppend(cfg, s, command).failed
    ensures !Due(cfg, Registered(cfg, LeaderAppend(cfg, s, command), w))
  {
    hide St.Objection, NothingCommittable;
  }

  lemma OwnAppendLeads(cfg: Config, s: Node, command: Option<SM.Command>)
    requires Shaped(s) && Available(s) && s.role == Leader
    ensures var s1 := LeaderAppend(cfg, s, command);
            !s1.failed ==> s1.role == Leader && Available(s1) && s1.leader == s.leader && s1.term == s.term
  {
    hide St.Objection;
  }

  // ---- Naming the leader ----

  /** How a call may change the leader that a node names. */
  ghost predicate NamesAnew(cfg: Config, s: Node, s': Node) {
    s'.leader == None || (s'.leader == s.leader && s'.term == s.term) || (s'.role == Leader && s'.leader == Some(cfg.self))
  }

  lemma TimeoutNames(cfg: Config, s: Node)
    requires Savable(s) && !Timeout(cfg, s).0.failed
    ensures NamesAnew(cfg, s, Timeout(cfg, s).0)
  {
    hide BecomeLeader;
    if Available(s) && s.role != Leader {
      HardStateSaves(cfg, s, s.term + 1, Some(cfg.self), s.commit);
      WinnerLeads(cfg, Campaigning(cfg, s));
    }
  }

  lemma VoteReplyNames(cfg: Config, s: Node, from: Id, req: VoteRequest, resp: VoteResponse)
    requires Savable(s) && (s.role == Candidate ==> s.term > 0) && !HandleVoteResponse(cfg, s, from, req, resp).failed
    ensures NamesAnew(cfg, s, HandleVoteResponse(cfg, s, from, req, resp))
  {
    hide BecomeLeader, StepDown;
    if Available(s) {
      VoteCounts(cfg, s, from, req, resp);
    }
  }

  lemma SnapshotNames(cfg: Config, s: Node)
    requires Shaped(s) && (s.role == Leader ==> s.applied == s.commit)
    ensures var s' := MaybeSnapshot(cfg, s); !s'.failed ==> s'.leader == s.leader && s'.term == s.term
  {
    hide CheckpointRecord;
  }

  lemma AppendReplyNames(cfg: Config, s: Node, from: Id, req: AppendRequest, resp: AppendResponse)
    requires Savable(s) && s.applied == s.commit && !HandleAppendResponse(cfg, s, from, req, resp).failed
    ensures NamesAnew(cfg, s, HandleAppendResponse(cfg, s, from, req, resp))
  {
    hide AdvanceCommit, MaybeSnapshot, StepDown;
    if Available(s) && resp.term > s.term {
      LaterAnswerDeposes(cfg, s, from, req, resp);
    } else if Available(s) && s.role == Leader && s.term == req.term == resp.term && resp.success {
      var s0 := Counted(s, from, req.prevLogIndex + |req.entries|);
      AdvanceCommitSettles(cfg, s0);
      if AdvanceCommit(cfg, s0).failed {
        FailureSticks(cfg, AdvanceCommit(cfg, s0));
      }
      AdvancesTo(cfg, s0);
      SnapshotNames(cfg, AdvanceCommit(cfg, s0));
    }
  }

  lemma SubmitNames(cfg: Config, s: Node, command: Option<SM.Command>, readKey: Option<SM.Text>, ticket: nat)
    requires Shaped(s) && !Submit(cfg, s, command, readKey, ticket).0.failed
    ensures NamesAnew(cfg, s, Submit(cfg, s, command, readKey, ticket).0)
  {
    hide AdvanceCommit, LeaderAppend;
    if Submit(cfg, s, command, readKey, ticket).2.None? {
      OwnAppendLeads(cfg, s, command);
      AdvancesTo(cfg, Registered(cfg, LeaderAppend(cfg, s, command), Waiter(ticket, readKey)));
    }
  }

  lemma RestartNames(cfg: Config, s: Node)
    requires Shaped(s) && !Restart(cfg, s).failed
    ensures Restart(cfg, s).leader == None && Restart(cfg, s).role == Follower
  {
    AppliesOnly(cfg, Reopened(s));
  }

  // ---- Every call ----

  /** A candidate has left term 0. */
  lemma CandidateTerm(w: World, n: Id)
    requires Good(w) && n in w.nodes
    ensures Ready(w, n) && (w.nodes[n].role == Candidate ==> w.nodes[n].term > 0)
  {
    GoodIsReady(w, n);
    if w.nodes[n].role == Candidate {
      CandidateHasTerm(w, n);
    }
  }

  lemma CallCommitsAll(w: World, c: Call)
    requires Good(w) && Genuine(w, c) && CommittedAll(ConfigOf(w, c.n), w.nodes[c.n])
    ensures CommittedAll(ConfigOf(w, c.n), Handled(w, c).0)
  {
    var cfg, s := ConfigOf(w, c.n), w.nodes[c.n];
    CandidateTerm(w, c.n);
    var _ := CallIsSteps(w, c);
    hide CommittedAll, Good;
    match c {
      case OnTimeout(_) => TimeoutCommitsAll(cfg, s);
      case OnVote(_, req) => VoteCommitsAll(cfg, s, req);
      case OnVoteReply(_, from, req, resp) => VoteReplyCommitsAll(cfg, s, from, req, resp);
      case OnAppend(_, req) => AppendCommitsAll(cfg, s, req);
      case OnAppendReply(_, from, req, resp) => AppendReplyCommitsAll(cfg, s, from, req, resp);
      case OnSubmit(_, command, readKey) => SubmitCommitsAll(cfg, s, command, readKey, |w.history|);
      case OnSend(_, _) =>
      case OnPause(_, paused) => SameProgress(cfg, s, Paused(s, paused));
      case OnCancel(_, index, ticket) => SameProgress(cfg, s, Cancelled(s, index, ticket));
      case OnRestart(_) =>
        RestartNames(cfg, s);
        NotLeading(cfg, Restart(cfg, s));
    }
  }

  lemma CallNames(w: World, c: Call)
    requires Good(w) && Genuine(w, c)
    ensures var s, s' := w.nodes[c.n], Handled(w, c).0;
            NamesAnew(ConfigOf(w, c.n), s, s') || (c.OnAppend? && s'.leader == Some(c.areq.leader) && s'.term == c.areq.term)
  {
    var cfg, s := ConfigOf(w, c.n), w.nodes[c.n];
    CandidateTerm(w, c.n);
    var _ := CallIsSteps(w, c);
    hide Good, NamesAnew;
    match c {
      case OnTimeout(_) => TimeoutNames(cfg, s);
      case OnVote(_, req) =>
        VoteAnswers(cfg, s, req);
        VoteNames(cfg, s, HandleVote(cfg, s, req).0);
      case OnVoteReply(_, from, req, resp) => VoteReplyNames(cfg, s, from, req, resp);
      case OnAppend(_, req) =>
        AppendAnswers(cfg, s, req);
        SameNames(cfg, s, s);
      case OnAppendReply(_, from, req, resp) => AppendReplyNames(cfg, s, from, req, resp);
      case OnSubmit(_, command, readKey) => SubmitNames(cfg, s, command, readKey, |w.history|);
      case OnSend(_, _) => SameNames(cfg, s, s);
      case OnPause(_, paused) => SameNames(cfg, s, Paused(s, paused));
      case OnCancel(_, index, ticket) => SameNames(cfg, s, Cancelled(s, index, ticket));
      case OnRestart(_) =>
        RestartNames(cfg, s);
        VoteNames(cfg, s, Restart(cfg, s));
    }
  }

  lemma SameNames(cfg: Config, s: Node, s': Node)
    requires s'.leader == s.leader && s'.term == s.term
    ensures NamesAnew(cfg, s, s')
  {
  }

  lemma VoteNames(cfg: Config, s: Node, s': Node)
    requires s'.leader == None || (s'.leader == s.leader && s'.term == s.term)
    ensures NamesAnew(cfg, s, s')
  {
  }

  /** Whom node `n` names as leader leads its term, or led it. */
  ghost predicate NamesLeader(w: World, n: Id) {
    n in w.nodes && (w.nodes[n].leader.Some? ==>
      w.nodes[n].term in w.reigns && w.reigns[w.nodes[n].term].leader == w.nodes[n].leader.value)
  }

  /** What a chain of steps leaves of the shared history. */
  lemma ReachedGrows(w: World, w': World)
    requires Good(w) && Reaches(w, w')
    ensures Grows(w, w')
  {
    hide Good, Next, Grows;
    var chain :| Joins(chain, AnyStep(), w, w');
    GrowsReflexive(w);
    forall v, v' | Good(v) && Grows(w, v) && AnyStep()(v, v') ensures Good(v') && Grows(w, v') {
      NextIsGood(v, v');
      GrowsTransitive(w, v, v');
    }
    Invariantly(chain, AnyStep(), v => Good(v) && Grows(w, v), |chain| - 1);
  }

  /** The promises about leaders. */
  ghost predicate Promised(w: World) {
    forall n {:trigger w.nodes[n]} :: n in w.nodes ==> NamesLeader(w, n) && CommittedAll(ConfigOf(w, n), w.nodes[n])
  }

  lemma LeaderLeads(w: World, n: Id)
    requires Good(w) && n in w.nodes && w.nodes[n].role == Leader
    ensures w.nodes[n].term in w.reigns && w.reigns[w.nodes[n].term].leader == n
  {
    assert NodeOK(w, n, w.nodes[n]);
  }

  lemma SenderLeads(w: World, req: AppendRequest)
    requires Good(w) && AppendReq(req) in w.net
    ensures req.term in w.reigns && w.reigns[req.term].leader == req.leader
  {
    assert MessageOK(w, AppendReq(req));
  }

  lemma CallNamesLeader(w: World, c: Call, w': World)
    requires Good(w) && Called(w, c, w') && Good(w') && Grows(w, w') && NamesLeader(w, c.n)
    ensures NamesLeader(w', c.n)
  {
    hide Handled, Good, Grows;
    var n, s' := c.n, w'.nodes[c.n];
    CallNames(w, c);
    if s'.role == Leader {
      LeaderLeads(w', n);
    }
    ReignStays(w, w', w.nodes[n].term);
    if c.OnAppend? && s'.leader == Some(c.areq.leader) && s'.term == c.areq.term {
      SenderLeads(w', c.areq);
    }
  }

  lemma CallKeepsPromises(w: World, c: Call, w': World)
    requires Good(w) && Called(w, c, w') && Promised(w)
    ensures Good(w') && Promised(w')
  {
    hide Good, Handled, Genuine, Grows;
    ReachedIsGood(w, w');
    ReachedGrows(w, w');
    CallCommitsAll(w, c);
    CallNamesLeader(w, c, w');
    forall n | n in w'.nodes ensures NamesLeader(w', n) && CommittedAll(ConfigOf(w', n), w'.nodes[n]) {
      if n != c.n {
        assert w'.nodes[n] == w.nodes[n];
        ReignStays(w, w', w.nodes[n].term);
      }
    }
  }

  lemma ReignStays(w: World, w': World, t: nat)
    requires Grows(w, w')
    ensures t in w.reigns ==> t in w'.reigns && w'.reigns[t].leader == w.reigns[t].leader
  {
  }

  lemma InitPromised(w: World)
    requires Init(w)
    ensures Good(w) && Promised(w)
  {
    InitIsGood(w);
    hide Good;
    forall n | n in w.nodes ensures NamesLeader(w, n) && CommittedAll(ConfigOf(w, n), w.nodes[n]) {
      assert w.nodes[n] == BLANK;
    }
  }

  /** Between any two calls, no leader has an uncommitted entry of its term that a majority is known to hold, and
      whoever a node names as leader, to its clients too, has led the node's term. */
  lemma BetweenCalls(w0: World, w: World)
    requires Init(w0) && ByCalls(w0, w)
    ensures Promised(w)
  {
    InitPromised(w0);
    hide Good, Promised, Called, Init;
    var chain :| Joins(chain, AnyCall(), w0, w);
    forall v, v' | Good(v) && Promised(v) && AnyCall()(v, v') ensures Good(v') && Promised(v') {
      var c :| Called(v, c, v');
      CallKeepsPromises(v, c, v');
    }
    Invariantly(chain, AnyCall(), v => Good(v) && Promised(v), |chain| - 1);
  }
}
