/** Handler by handler: from every reachable state, the handler's effect on its node is a chain of
    the group's steps, its reply is among the messages, and no defensive error can occur. */
module Simulation {
  import opened Wrappers
  import opened RaftTypes
  import opened NodeModel
  import opened Cluster
  import opened Invariant
  import opened Preservation
  import opened QuietSteps
  import opened Replication
  import opened Serving
  import opened Safety
  import opened Handlers
  import opened Chains
  import SM = StateMachine

  // ---- Shared pieces ----

  lemma ReachedIsReady(w: World, w': World, n: Id)
    requires Good(w) && Reaches(w, w') && n in w'.nodes
    ensures Ready(w', n)
  {
    ReachedIsGood(w, w');
    GoodIsReady(w', n);
  }

  lemma ReplyRefused(w: World, n: Id, m: Message) returns (w': World)
    requires Ready(w, n) && Negative(m)
    ensures Makes(w, w', n, w.nodes[n]) && m in w'.net
  {
    var step := Refuse(n, m);
    MakeOne(w, step);
    w' := Do(w, step);
  }

  lemma StepDownIsChange(cfg: Config, s: Node, term: nat, leader: Option<Id>)
    requires Savable(s) && term >= s.term
    ensures StepDown(cfg, s, term, leader)
         == if term > s.term then Bumped(s, term, leader)
            else FailPending(s.(role := Follower, leader := leader), NotLeader(leader))
  {
    if term > s.term {
      HardStateSaves(cfg, s, term, None, s.commit);
    }
  }

  /** Giving up the waiters, and perhaps the lead, needs no justification. */
  lemma GivingUpIsHarmless(s: Node, leader: Option<Id>, a: Answer)
    requires !a.Answered?
    ensures Harmless(s, FailPending(s.(role := Follower, leader := leader), a))
  {
  }

  lemma LocalIsStep(w: World, n: Id, s': Node) returns (w': World)
    requires Ready(w, n) && Harmless(w.nodes[n], s')
    ensures Makes(w, w', n, s') && Ready(w', n)
  {
    var step := Local(n, s');
    MakeOne(w, step);
    w' := Do(w, step);
    ReachedIsReady(w, w', n);
  }

  lemma BumpIsStep(w: World, n: Id, term: nat, leader: Option<Id>) returns (w': World)
    requires Ready(w, n) && term > w.nodes[n].term
    ensures Makes(w, w', n, Bumped(w.nodes[n], term, leader)) && Ready(w', n)
  {
    var step := Bump(n, term, leader);
    MakeOne(w, step);
    w' := Do(w, step);
    ReachedIsReady(w, w', n);
  }

  lemma StepDownIsSteps(w: World, n: Id, term: nat, leader: Option<Id>) returns (w': World)
    requires Ready(w, n) && term >= w.nodes[n].term
    ensures var s' := StepDown(ConfigOf(w, n), w.nodes[n], term, leader);
            Makes(w, w', n, s') && !s'.failed && s'.term == term && s'.role == Follower
    ensures Ready(w', n)
  {
    var s := w.nodes[n];
    StepDownIsChange(ConfigOf(w, n), s, term, leader);
    if term > s.term {
      w' := BumpIsStep(w, n, term, leader);
    } else {
      GivingUpIsHarmless(s, leader, NotLeader(leader));
      w' := LocalIsStep(w, n, FailPending(s.(role := Follower, leader := leader), NotLeader(leader)));
    }
  }

  lemma {:induction false} ApplyAllIsSteps(w: World, n: Id) returns (w': World)
    requires n in w.nodes && n in w.members && Shaped(w.nodes[n])
    ensures Makes(w, w', n, ApplyAll(w.nodes[n]))
    decreases w.nodes[n].commit - w.nodes[n].applied
  {
    var s := w.nodes[n];
    if s.applied < s.commit {
      var step := ApplyOne(n);
      MakeOne(w, step);
      var w1 := Do(w, step);
      assert w1.nodes[n] == ApplyNext(s);
      ApplyNextFrame(s);
      w' := ApplyAllIsSteps(w1, n);
      MakeThen(w, w1, w', n, ApplyNext(s), ApplyAll(s));
    } else {
      w' := w;
      MakeNothing(w, n);
    }
  }

  lemma SnapshotIsSteps(w: World, n: Id) returns (w': World)
    requires Ready(w, n) && (w.nodes[n].role == Leader ==> w.nodes[n].applied == w.nodes[n].commit)
    ensures var s, s' := w.nodes[n], MaybeSnapshot(ConfigOf(w, n), w.nodes[n]);
            Makes(w, w', n, s') && !s'.failed && s'.applied == s.applied && s'.commit == s.commit
  {
    var s, cfg := w.nodes[n], ConfigOf(w, n);
    CheckpointSaves(cfg, s);
    if MaybeSnapshot(cfg, s) == s {
      w' := w;
      MakeNothing(w, n);
    } else {
      var step := Compact(n);
      MakeOne(w, step);
      w' := Do(w, step);
    }
  }

  lemma ApplyLockedIsSteps(w: World, n: Id) returns (w': World)
    requires Ready(w, n)
    ensures var s' := ApplyLocked(ConfigOf(w, n), w.nodes[n]);
            Makes(w, w', n, s') && !s'.failed && s'.applied == s'.commit
  {
    hide MaybeSnapshot, ApplyAll;
    var s := w.nodes[n];
    AppliedToCommit(s);
    var w1 := ApplyAllIsSteps(w, n);
    ReachedIsReady(w, w1, n);
    w' := SnapshotIsSteps(w1, n);
    MakeThen(w, w1, w', n, ApplyAll(s), ApplyLocked(ConfigOf(w, n), s));
  }

  lemma AdvanceCommitIsSteps(w: World, n: Id) returns (w': World)
    requires Ready(w, n)
    ensures var s' := AdvanceCommit(ConfigOf(w, n), w.nodes[n]);
            Makes(w, w', n, s') && !s'.failed && (w.nodes[n].applied == w.nodes[n].commit ==> s'.applied == s'.commit)
  {
    var s, cfg := w.nodes[n], ConfigOf(w, n);
    if s.role != Leader || !Available(s) || CommitTarget(cfg, s, Last(s)).None? {
      w' := w;
      MakeNothing(w, n);
    } else {
      var i := CommitTarget(cfg, s, Last(s)).value;
      HardStateSaves(cfg, s, s.term, s.vote, i);
      var step := Commit(n, i);
      MakeOne(w, step);
      var w1 := Do(w, step);
      ReachedIsReady(w, w1, n);
      w' := ApplyLockedIsSteps(w1, n);
      MakeThen(w, w1, w', n, s.(commit := i), AdvanceCommit(cfg, s));
    }
  }

  lemma OwnEntryFits(log: Log, term: nat, command: Option<SM.Command>)
    requires WellFormed(log) && term > 0 && LastTerm(log) <= term && (command.Some? ==> SM.ValidCommand(command.value))
    ensures WellFormed(log + [Entry(|log|, term, command)])
  {
  }

  /** A leader's own entry passes the store. */
  lemma OwnEntrySaves(cfg: Config, s: Node, command: Option<SM.Command>)
    requires Savable(s) && s.term > 0 && (command.Some? ==> SM.ValidCommand(command.value))
    ensures LeaderAppend(cfg, s, command) == s.(log := s.log + [Entry(|s.log|, s.term, command)])
  {
    hide Persist;
    var e := Entry(|s.log|, s.term, command);
    OwnEntryFits(s.log, s.term, command);
    hide WellFormed;
    assert s.log[..|s.log|] + [e] == s.log + [e];
    SuffixSaves(cfg, s, s.commit, |s.log|, [e], s.log + [e]);
  }

  lemma OpeningEntrySaves(w: World, n: Id)
    requires Ready(w, n) && w.nodes[n].role == Candidate && w.nodes[n].term > 0
    ensures var s, cfg := w.nodes[n], ConfigOf(w, n);
            var log := s.log + [Entry(|s.log|, s.term, None)];
            LeaderAppend(cfg, Crowned(cfg, s), None) == Crowned(cfg, s).(log := log)
  {
    hide LeaderAppend;
    OwnEntrySaves(ConfigOf(w, n), Crowned(ConfigOf(w, n), w.nodes[n]), None);
  }

  lemma CandidateHasTerm(w: World, n: Id)
    requires Ready(w, n) && w.nodes[n].role == Candidate
    ensures w.nodes[n].term > 0
  {
    assert NodeOK(w, n, w.nodes[n]);
    assert CampaignOK(w, n, w.nodes[n].term, w.campaigns[(n, w.nodes[n].term)]);
  }

  lemma BecomeLeaderIsChange(w: World, n: Id)
    requires Ready(w, n) && w.nodes[n].role == Candidate
    ensures Shaped(Elected(ConfigOf(w, n), w.nodes[n]))
    ensures BecomeLeader(ConfigOf(w, n), w.nodes[n]) == AdvanceCommit(ConfigOf(w, n), Elected(ConfigOf(w, n), w.nodes[n]))
  {
    CandidateHasTerm(w, n);
    OpeningEntrySaves(w, n);
    OpeningEntryElects(ConfigOf(w, n), w.nodes[n]);
  }

  lemma OpeningEntryElects(cfg: Config, s: Node)
    requires Shaped(s) && !s.failed
    requires LeaderAppend(cfg, Crowned(cfg, s), None) == Crowned(cfg, s).(log := s.log + [Entry(|s.log|, s.term, None)])
    ensures Shaped(Elected(cfg, s)) && BecomeLeader(cfg, s) == AdvanceCommit(cfg, Elected(cfg, s))
  {
  }

  lemma ElectIsStep(w: World, n: Id) returns (w': World)
    requires Ready(w, n) && w.nodes[n].role == Candidate && |w.nodes[n].votes| > |w.members| / 2
    ensures Ready(w', n) && Makes(w, w', n, Elected(ConfigOf(w, n), w.nodes[n]))
  {
    var step := Elect(n);
    MakeOne(w, step);
    w' := Do(w, step);
    ReachedIsReady(w, w', n);
  }

  lemma BecomeLeaderIsSteps(w: World, n: Id) returns (w': World)
    requires Ready(w, n) && w.nodes[n].role == Candidate
    requires |w.nodes[n].votes| > |w.members| / 2
    ensures var s' := BecomeLeader(ConfigOf(w, n), w.nodes[n]);
            Makes(w, w', n, s') && !s'.failed && (w.nodes[n].applied == w.nodes[n].commit ==> s'.applied == s'.commit)
  {
    BecomeLeaderIsChange(w, n);
    var w1 := ElectIsStep(w, n);
    w' := AdvanceCommitIsSteps(w1, n);
    MakeThen(w, w1, w', n, w1.nodes[n], w'.nodes[n]);
  }

  // ---- Elections ----

  lemma CampaignIsStep(w: World, n: Id) returns (w': World)
    requires Ready(w, n) && w.nodes[n].role != Leader
    ensures var s' := Campaigning(ConfigOf(w, n), w.nodes[n]);
            && Makes(w, w', n, s') && Ready(w', n) && !s'.failed && s'.role == Candidate
            && s'.applied == w.nodes[n].applied && s'.commit == w.nodes[n].commit
            && VoteReq(Solicitation(ConfigOf(w, n), s')) in w'.net
  {
    var s := w.nodes[n];
    HardStateSaves(ConfigOf(w, n), s, s.term + 1, Some(n), s.commit);
    var step := Campaign(n);
    MakeOne(w, step);
    w' := Do(w, step);
    ReachedIsReady(w, w', n);
  }

  /** Tick with an expired timer. */
  lemma TimeoutIsSteps(w: World, n: Id) returns (w': World)
    requires Ready(w, n)
    ensures var (s', req) := Timeout(ConfigOf(w, n), w.nodes[n]);
            && Makes(w, w', n, s') && !s'.failed && (w.nodes[n].applied == w.nodes[n].commit ==> s'.applied == s'.commit)
            && (req.Some? ==> VoteReq(req.value) in w'.net)
  {
    hide Campaigning, BecomeLeader;
    var s, cfg := w.nodes[n], ConfigOf(w, n);
    if !Available(s) || s.role == Leader {
      w' := w;
      MakeNothing(w, n);
    } else {
      var w1 := CampaignIsStep(w, n);
      if |w1.nodes[n].votes| > |w.members| / 2 {
        w' := BecomeLeaderIsSteps(w1, n);
        MakeThen(w, w1, w', n, w1.nodes[n], BecomeLeader(cfg, w1.nodes[n]));
      } else {
        w' := w1;
      }
    }
  }

  lemma GrantIsSteps(w: World, n: Id, req: VoteRequest) returns (w': World)
    requires Ready(w, n) && VoteReq(req) in w.net && req.candidate != n
    requires Shaped(w.nodes[n]) && req.term == w.nodes[n].term && Grants(w.nodes[n], req)
    ensures var s := w.nodes[n];
            && Makes(w, w', n, s.(vote := Some(req.candidate)))
            && VoteRep(req, n, VoteResponse(s.term, true)) in w'.net
            && (s.vote == None ==>
                  Persist(ConfigOf(w, n), s, req.term, Some(req.candidate), s.commit, 0, []) == s.(vote := Some(req.candidate)))
  {
    var s := w.nodes[n];
    if s.vote == None {
      HardStateSaves(ConfigOf(w, n), s, req.term, Some(req.candidate), s.commit);
    }
    var step := Grant(n, req);
    MakeOne(w, step);
    w' := Do(w, step);
  }

  /** RequestVote, once the node is in the request's term. */
  lemma VoteDecisionIsSteps(w: World, n: Id, req: VoteRequest) returns (w': World)
    requires Ready(w, n) && VoteReq(req) in w.net && req.candidate != n
    requires Shaped(w.nodes[n]) && req.term == w.nodes[n].term && !w.nodes[n].failed
    ensures var s := w.nodes[n];
            var (s', resp, error) := DecideVote(ConfigOf(w, n), s, req);
            && Makes(w, w', n, s') && VoteRep(req, n, resp) in w'.net && error == NoError
            && !s'.failed && s'.applied == s.applied && s'.commit == s.commit
  {
    hide Persist;
    if Grants(w.nodes[n], req) {
      w' := GrantIsSteps(w, n, req);
      assert w.nodes[n].vote.Some? ==> w.nodes[n].(vote := Some(req.candidate)) == w.nodes[n];
    } else {
      w' := ReplyRefused(w, n, VoteRep(req, n, VoteResponse(w.nodes[n].term, false)));
    }
  }

  /** RequestVote. */
  lemma HandleVoteIsSteps(w: World, n: Id, req: VoteRequest) returns (w': World)
    requires Ready(w, n) && VoteReq(req) in w.net
    ensures var (s', resp, error) := HandleVote(ConfigOf(w, n), w.nodes[n], req);
            && Makes(w, w', n, s') && !s'.failed && s'.applied == w.nodes[n].applied && s'.commit == w.nodes[n].commit
            && (error == NoError ==> VoteRep(req, n, resp) in w'.net)
            && (error == NodeUnavailable <==> w.nodes[n].paused)
            && (error == NoError || error == NodeUnavailable || error == UnknownPeer)
  {
    hide StepDown, DecideVote;
    var s, cfg := w.nodes[n], ConfigOf(w, n);
    if !Available(s) || !Member(cfg, req.candidate, req.cluster) {
      w' := w;
      MakeNothing(w, n);
    } else if req.term < s.term {
      w' := ReplyRefused(w, n, VoteRep(req, n, VoteResponse(s.term, false)));
    } else if req.term > s.term {
      var w1 := StepDownIsSteps(w, n, req.term, None);
      StepDownFrame(cfg, s, req.term, None);
      w' := VoteDecisionIsSteps(w1, n, req);
      MakeThen(w, w1, w', n, w1.nodes[n], w'.nodes[n]);
    } else {
      w' := VoteDecisionIsSteps(w, n, req);
    }
  }

  lemma StepDownFrame(cfg: Config, s: Node, term: nat, leader: Option<Id>)
    requires Shaped(s) && !s.failed && !StepDown(cfg, s, term, leader).failed
    ensures var s' := StepDown(cfg, s, term, leader);
            s'.applied == s.applied && s'.commit == s.commit && s'.log == s.log && s'.base == s.base && s'.paused == s.paused
  {
    hide Persist;
    HardStateOnly(cfg, s, term, None, s.commit);
  }

  /** voteResponseLocked. */
  lemma HandleVoteResponseIsSteps(w: World, n: Id, from: Id, req: VoteRequest, resp: VoteResponse) returns (w': World)
    requires Ready(w, n) && VoteRep(req, from, resp) in w.net && req.candidate == n
    ensures var s' := HandleVoteResponse(ConfigOf(w, n), w.nodes[n], from, req, resp);
            Makes(w, w', n, s') && !s'.failed && (w.nodes[n].applied == w.nodes[n].commit ==> s'.applied == s'.commit)
  {
    hide BecomeLeader, StepDown;
    var s, cfg := w.nodes[n], ConfigOf(w, n);
    if Available(s) && resp.term > s.term {
      w' := StepDownIsSteps(w, n, resp.term, None);
      StepDownFrame(cfg, s, resp.term, None);
    } else if !Available(s) || s.role != Candidate || s.term != req.term || resp.term != req.term || !resp.granted {
      w' := w;
      MakeNothing(w, n);
    } else {
      var step := CountVote(n, from, req, resp);
      MakeOne(w, step);
      var w1 := Do(w, step);
      ReachedIsReady(w, w1, n);
      if |w1.nodes[n].votes| > |w.members| / 2 {
        w' := BecomeLeaderIsSteps(w1, n);
        MakeThen(w, w1, w', n, w1.nodes[n], BecomeLeader(cfg, w1.nodes[n]));
      } else {
        w' := w1;
      }
    }
  }

  // ---- Replication ----

  /** The follower's defensive checks never fire on a genuine request: no entry is malformed, none of
      equal index and term differs, and nothing committed is overwritten. */
  lemma GuardsHold(w: World, n: Id, req: AppendRequest)
    requires Ready(w, n) && AppendReq(req) in w.net && req.term == w.nodes[n].term
    requires w.nodes[n].base <= req.prevLogIndex < |w.nodes[n].log|
    requires w.nodes[n].log[req.prevLogIndex].term == req.prevLogTerm
    ensures Acceptable(w.nodes[n], req)
  {
    var s, t := w.nodes[n], req.term;
    RequestFacts(w, req);
    var r := w.reigns[t].log;
    LogParts(w, n);
    assert GoodLog(w, r) && LastTerm(r) == t by {
      assert ReignOK(w, t, w.reigns[t]);
    }
    assert Agree(s.log, r, s.commit + 1) by {
      ReignsWellFormed(w);
      CoveredIsLeaders(w, t, s.log, s.commit);
    }
    ScanIsClean(w, s, req, r);
  }

  lemma ScanIsClean(w: World, s: Node, req: AppendRequest, r: Log)
    requires Shaped(s) && s.base <= req.prevLogIndex < |s.log| && s.log[req.prevLogIndex].term == req.prevLogTerm
    requires GoodLog(w, s.log) && GoodLog(w, r) && LastTerm(r) == req.term && WindowOf(r, req)
    requires Agree(s.log, r, s.commit + 1)
    ensures Acceptable(s, req)
  {
    LogsMatch(w, s.log, r, req.prevLogIndex);
    GoodLogsMatch(w, s.log, r);
    ScanFindsDifference(s, req, r, 0);
    var scan := ScanEntries(s, req, 0);
    if scan.Differ? {
      assert !Agree(s.log, r, req.prevLogIndex + 2 + scan.at);
    }
  }

  /** What the merge persists is exactly the accepted node. */
  lemma MergeIsChange(w: World, n: Id, req: AppendRequest)
    requires Ready(w, n) && AppendReq(req) in w.net && req.term == w.nodes[n].term && Acceptable(w.nodes[n], req)
    requires w.nodes[n].role == Follower
    ensures var cfg, s := ConfigOf(w, n), w.nodes[n];
            var s', matched := AcceptedNode(s, req), req.prevLogIndex + |req.entries|;
            && Shaped(s')
            && MergeEntries(cfg, s, req)
            == (if s' == s then s else ApplyLocked(cfg, s'), AppendResponse(s.term, true, matched, 0), NoError)
  {
    var cfg, s := ConfigOf(w, n), w.nodes[n];
    var s', scan := AcceptedNode(s, req), ScanEntries(s, req, 0);
    RequestFacts(w, req);
    AcceptedParts(w, n, req);
    MergedFrame(cfg, s, req);
  }

  /** A follower's save and apply, once the store is known not to object. */
  lemma SavedAndApplied(cfg: Config, s: Node, commit: nat, from: nat, entries: seq<Entry>, matched: nat, s': Node)
    requires Shaped(s) && Shaped(s') && !s'.failed && s'.term == s.term && s'.role == Follower
    requires from != 0 || commit != s.commit
    requires Persist(cfg, s, s.term, s.vote, commit, from, entries) == s'
    ensures Merged(cfg, s, commit, from, entries, matched)
         == (ApplyLocked(cfg, s'), AppendResponse(s.term, true, matched, 0), NoError)
  {
    ApplyKeepsTerm(cfg, s');
  }

  lemma DifferentSuffixMerges(cfg: Config, s: Node, commit: nat, from: nat, entries: seq<Entry>, matched: nat, s': Node)
    requires Savable(s) && s.role == Follower && s.commit < from <= |s.log| && entries != []
    requires from < |s.log| ==> s.log[from].term != entries[0].term
    requires s' == s.(log := s.log[..from] + entries, commit := commit) && commit >= s.commit && Savable(s')
    requires commit < from + |entries|
    ensures s' != s
    ensures Merged(cfg, s, commit, from, entries, matched)
         == (ApplyLocked(cfg, s'), AppendResponse(s.term, true, matched, 0), NoError)
  {
    SuffixSaves(cfg, s, commit, from, entries, s'.log);
    SavedAndApplied(cfg, s, commit, from, entries, matched, s');
    assert s'.log[from] == entries[0];
  }

  lemma SameLogMerges(cfg: Config, s: Node, commit: nat, matched: nat, s': Node)
    requires Savable(s) && s.role == Follower && s' == s.(commit := commit) && commit >= s.commit && Savable(s')
    ensures Merged(cfg, s, commit, 0, [], matched)
         == (if s' == s then s else ApplyLocked(cfg, s'), AppendResponse(s.term, true, matched, 0), NoError)
  {
    if commit != s.commit {
      HardStateSaves(cfg, s, s.term, s.vote, commit);
      SavedAndApplied(cfg, s, commit, 0, [], matched, s');
    }
  }

  lemma MergedFrame(cfg: Config, s: Node, req: AppendRequest)
    requires Savable(s) && s.role == Follower && Acceptable(s, req) && req.term == s.term
    requires var s' := AcceptedNode(s, req); Savable(s') && s'.commit >= s.commit
    ensures var s', matched := AcceptedNode(s, req), req.prevLogIndex + |req.entries|;
            MergeEntries(cfg, s, req)
            == (if s' == s then s else ApplyLocked(cfg, s'), AppendResponse(s.term, true, matched, 0), NoError)
  {
    if ScanEntries(s, req, 0).Differ? {
      MergedSuffix(cfg, s, req);
    } else {
      MergedSame(cfg, s, req);
    }
  }

  lemma MergedSuffix(cfg: Config, s: Node, req: AppendRequest)
    requires Savable(s) && s.role == Follower && Acceptable(s, req) && req.term == s.term && ScanEntries(s, req, 0).Differ?
    requires var s' := AcceptedNode(s, req); Savable(s') && s'.commit >= s.commit
    ensures var s', matched := AcceptedNode(s, req), req.prevLogIndex + |req.entries|;
            MergeEntries(cfg, s, req) == (ApplyLocked(cfg, s'), AppendResponse(s.term, true, matched, 0), NoError) && s' != s
  {
    hide Merged, MergeEntries, Decide, ApplyLocked, Persist;
    var s', matched := AcceptedNode(s, req), req.prevLogIndex + |req.entries|;
    var from, entries := DecideAccepts(s, req);
    MergeBySave(cfg, s, req, s'.commit, from, entries);
    AcceptedSuffix(s, req);
    DifferentSuffixMerges(cfg, s, s'.commit, from, entries, matched, s');
  }

  lemma MergedSame(cfg: Config, s: Node, req: AppendRequest)
    requires Savable(s) && s.role == Follower && Acceptable(s, req) && req.term == s.term && ScanEntries(s, req, 0).Same?
    requires var s' := AcceptedNode(s, req); Savable(s') && s'.commit >= s.commit
    ensures var s', matched := AcceptedNode(s, req), req.prevLogIndex + |req.entries|;
            MergeEntries(cfg, s, req)
            == (if s' == s then s else ApplyLocked(cfg, s'), AppendResponse(s.term, true, matched, 0), NoError)
  {
    hide Merged, MergeEntries, Decide, ApplyLocked, Persist, Acceptable;
    var s', matched := AcceptedNode(s, req), req.prevLogIndex + |req.entries|;
    var from, entries := DecideAccepts(s, req);
    MergeBySave(cfg, s, req, s'.commit, from, entries);
    assert s' == s.(commit := s'.commit);
    SameLogMerges(cfg, s, s'.commit, matched, s');
  }

  /** A scan that found a difference replaces the log from there on. */
  lemma AcceptedSuffix(s: Node, req: AppendRequest)
    requires Acceptable(s, req) && ScanEntries(s, req, 0).Differ?
    ensures var s', at := AcceptedNode(s, req), ScanEntries(s, req, 0).at;
            var from, entries := req.prevLogIndex + 1 + at, req.entries[at..];
            && s.commit < from <= |s.log| && entries != []
            && (from < |s.log| ==> s.log[from].term != entries[0].term)
            && s' == s.(log := s.log[..from] + entries, commit := s'.commit) && (s.commit <= s'.commit ==> s'.commit < from + |entries|)
  {
  }

  /** Past the checks, AppendEntries saves what the scan found. */
  lemma DecideAccepts(s: Node, req: AppendRequest) returns (from: nat, entries: seq<Entry>)
    requires Acceptable(s, req)
    ensures Decide(s, req) == Save(from, entries)
    ensures var scan := ScanEntries(s, req, 0);
            if scan.Differ? then from == req.prevLogIndex + 1 + scan.at && entries == req.entries[scan.at..]
            else from == 0 && entries == []
  {
    var scan := ScanEntries(s, req, 0);
    from, entries := if scan.Differ? then req.prevLogIndex + 1 + scan.at else 0, if scan.Differ? then req.entries[scan.at..] else [];
  }

  lemma ApplyKeepsTerm(cfg: Config, s: Node)
    requires Shaped(s) && !s.failed && s.role == Follower
    ensures var s' := ApplyLocked(cfg, s); s'.term == s.term && !s'.failed && s'.base == s.base && s'.paused == s.paused
  {
    ApplyAllKeepsTerm(s);
  }

  lemma AcceptIsStep(w: World, n: Id, req: AppendRequest) returns (w': World)
    requires Ready(w, n) && AppendReq(req) in w.net && req.leader != n && req.term == w.nodes[n].term
    requires Acceptable(w.nodes[n], req) && w.nodes[n].role == Follower
    ensures Makes(w, w', n, AcceptedNode(w.nodes[n], req)) && Ready(w', n)
    ensures AppendRep(req, n, AppendResponse(w.nodes[n].term, true, req.prevLogIndex + |req.entries|, 0)) in w'.net
  {
    var step := Accept(n, req);
    MakeOne(w, step);
    w' := Do(w, step);
    ReachedIsReady(w, w', n);
  }

  lemma MergeIsSteps(w: World, n: Id, req: AppendRequest) returns (w': World)
    requires Ready(w, n) && AppendReq(req) in w.net && req.leader != n && req.term == w.nodes[n].term
    requires Acceptable(w.nodes[n], req) && w.nodes[n].role == Follower
    ensures var (s', resp, error) := MergeEntries(ConfigOf(w, n), w.nodes[n], req);
            && Makes(w, w', n, s') && !s'.failed && error == NoError && AppendRep(req, n, resp) in w'.net
            && (w.nodes[n].applied == w.nodes[n].commit ==> s'.applied == s'.commit)
            && resp == AppendResponse(req.term, true, req.prevLogIndex + |req.entries|, 0) && FollowsOn(w.nodes[n], s', req)
  {
    MergeIsChange(w, n, req);
    var w1 := AcceptIsStep(w, n, req);
    if AcceptedNode(w.nodes[n], req) == w.nodes[n] {
      w' := w1;
    } else {
      w' := ApplyLockedIsSteps(w1, n);
      MakeThen(w, w1, w', n, w1.nodes[n], w'.nodes[n]);
      ApplyKeepsTerm(ConfigOf(w, n), w1.nodes[n]);
    }
  }

  /** A node that answered a request of its leader: in the request's term, with the base it had. */
  predicate FollowsOn(s: Node, s': Node, req: AppendRequest) {
    s'.term == req.term && s'.base == s.base && s'.paused == s.paused
  }

  /** The request's previous entry is in the log. */
  predicate Meets(s: Node, req: AppendRequest) {
    s.base <= req.prevLogIndex < |s.log| && s.log[req.prevLogIndex].term == req.prevLogTerm
  }

  /** AppendEntries, once the node follows the sender in the request's term. */
  lemma AppendDecisionIsSteps(w: World, n: Id, req: AppendRequest) returns (w': World)
    requires Ready(w, n) && AppendReq(req) in w.net && req.leader != n
    requires w.nodes[n].role == Follower && w.nodes[n].term == req.term
    ensures var (s', resp, error) := Consistent(ConfigOf(w, n), w.nodes[n], req);
            && Makes(w, w', n, s') && !s'.failed && error == NoError && AppendRep(req, n, resp) in w'.net
            && (w.nodes[n].applied == w.nodes[n].commit ==> s'.applied == s'.commit)
            && (Meets(w.nodes[n], req) ==> resp == AppendResponse(req.term, true, req.prevLogIndex + |req.entries|, 0))
            && FollowsOn(w.nodes[n], s', req)
  {
    var s := w.nodes[n];
    if Meets(s, req) {
      GuardsHold(w, n, req);
      w' := MergeIsSteps(w, n, req);
    } else {
      var (_, resp, _) := Consistent(ConfigOf(w, n), s, req);
      w' := ReplyRefused(w, n, AppendRep(req, n, resp));
    }
  }

  /** AppendEntries. */
  lemma HandleAppendIsSteps(w: World, n: Id, req: AppendRequest) returns (w': World)
    requires Ready(w, n) && AppendReq(req) in w.net
    ensures var (s', resp, error) := HandleAppend(ConfigOf(w, n), w.nodes[n], req);
            && Makes(w, w', n, s') && !s'.failed && (w.nodes[n].applied == w.nodes[n].commit ==> s'.applied == s'.commit)
            && (error == NoError ==> AppendRep(req, n, resp) in w'.net)
            && (error == NodeUnavailable <==> w.nodes[n].paused)
            && (error == NoError || error == NodeUnavailable || error == UnknownPeer)
            && (error == NoError && req.term >= w.nodes[n].term ==>
                  && FollowsOn(w.nodes[n], s', req)
                  && (Meets(w.nodes[n], req) ==> resp == AppendResponse(req.term, true, req.prevLogIndex + |req.entries|, 0)))
  {
    var s, cfg := w.nodes[n], ConfigOf(w, n);
    if !Available(s) || !Member(cfg, req.leader, req.cluster) {
      w' := w;
      MakeNothing(w, n);
    } else if req.term < s.term {
      w' := ReplyRefused(w, n, AppendRep(req, n, Refusal(s)));
    } else {
      var w1 := StepDownIsSteps(w, n, req.term, Some(req.leader));
      StepDownFrame(cfg, s, req.term, Some(req.leader));
      w' := AppendDecisionIsSteps(w1, n, req);
      MakeThen(w, w1, w', n, w1.nodes[n], w'.nodes[n]);
    }
  }

  /** acceptAppendLocked. */
  lemma HandleAppendResponseIsSteps(w: World, n: Id, from: Id, req: AppendRequest, resp: AppendResponse) returns (w': World)
    requires Ready(w, n) && AppendRep(req, from, resp) in w.net && req.leader == n
    requires w.nodes[n].applied == w.nodes[n].commit
    ensures var s' := HandleAppendResponse(ConfigOf(w, n), w.nodes[n], from, req, resp);
            Makes(w, w', n, s') && !s'.failed && s'.applied == s'.commit
  {
    hide AdvanceCommit, MaybeSnapshot, StepDown, Counted;
    var s, cfg := w.nodes[n], ConfigOf(w, n);
    if !Available(s) || (resp.term <= s.term && (s.role != Leader || s.term != req.term || resp.term != req.term)) {
      w' := w;
      MakeNothing(w, n);
    } else if resp.term > s.term {
      w' := StepDownIsSteps(w, n, resp.term, None);
      StepDownFrame(cfg, s, resp.term, None);
    } else if resp.success {
      w' := CountMatchIsSteps(w, n, from, req, resp);
    } else {
      w' := BackOffIsStep(w, n, from, req, resp);
    }
  }

  lemma BackOffIsStep(w: World, n: Id, from: Id, req: AppendRequest, resp: AppendResponse) returns (w': World)
    requires Ready(w, n) && w.nodes[n].role == Leader
    ensures Makes(w, w', n, BackedOff(w.nodes[n], from, req, resp))
  {
    w' := LocalIsStep(w, n, BackedOff(w.nodes[n], from, req, resp));
  }

  lemma CountMatchIsStep(w: World, n: Id, from: Id, req: AppendRequest, resp: AppendResponse) returns (w': World)
    requires Ready(w, n) && AppendRep(req, from, resp) in w.net && req.leader == n
    requires w.nodes[n].role == Leader && resp.success && w.nodes[n].term == req.term == resp.term
    ensures Makes(w, w', n, Counted(w.nodes[n], from, req.prevLogIndex + |req.entries|)) && Ready(w', n)
  {
    var step := CountMatch(n, from, req, resp);
    MakeOne(w, step);
    w' := Do(w, step);
    ReachedIsReady(w, w', n);
  }

  lemma CountMatchIsSteps(w: World, n: Id, from: Id, req: AppendRequest, resp: AppendResponse) returns (w': World)
    requires Ready(w, n) && AppendRep(req, from, resp) in w.net && req.leader == n
    requires w.nodes[n].role == Leader && resp.success && w.nodes[n].term == req.term == resp.term
    requires w.nodes[n].applied == w.nodes[n].commit
    ensures var cfg, s1 := ConfigOf(w, n), Counted(w.nodes[n], from, req.prevLogIndex + |req.entries|);
            && Shaped(s1) && s1.applied == s1.commit
            && var s2 := AdvanceCommit(cfg, s1);
               && (s2.role == Leader ==> s2.applied == s2.commit)
               && var s' := MaybeSnapshot(cfg, s2);
                  Makes(w, w', n, s') && !s'.failed && s'.applied == s'.commit
  {
    var w1 := CountMatchIsStep(w, n, from, req, resp);
    AdvanceCommitSettles(ConfigOf(w, n), w1.nodes[n]);
    w' := AdvanceAndSnapshotIsSteps(w1, n);
    MakeThen(w, w1, w', n, w1.nodes[n], w'.nodes[n]);
  }

  lemma AdvanceAndSnapshotIsSteps(w: World, n: Id) returns (w': World)
    requires Ready(w, n) && w.nodes[n].applied == w.nodes[n].commit
    ensures var cfg := ConfigOf(w, n);
            var s1 := AdvanceCommit(cfg, w.nodes[n]);
            && s1.applied == s1.commit
            && var s' := MaybeSnapshot(cfg, s1);
               Makes(w, w', n, s') && !s'.failed && s'.applied == s'.commit
  {
    var w1 := AdvanceCommitIsSteps(w, n);
    assert Ready(w1, n) by {
      ReachedIsReady(w, w1, n);
    }
    w' := SnapshotIsSteps(w1, n);
    MakeThen(w, w1, w', n, w1.nodes[n], w'.nodes[n]);
  }

  /** prepareAppendLocked: what a leader sends is a window of its log. */
  lemma PrepareIsStep(w: World, n: Id, p: Id) returns (w': World)
    requires Ready(w, n) && w.nodes[n].role == Leader && Prepare(ConfigOf(w, n), w.nodes[n], p).Some?
    ensures Makes(w, w', n, w.nodes[n]) && AppendReq(Prepare(ConfigOf(w, n), w.nodes[n], p).value) in w'.net
  {
    var s, req := w.nodes[n], Prepare(ConfigOf(w, n), w.nodes[n], p).value;
    var step := Send(n, req.prevLogIndex, |req.entries|);
    assert req == Window(w, n, req.prevLogIndex, |req.entries|) by {
      PrepareIsWindow(ConfigOf(w, n), s, p);
    }
    MakeOne(w, step);
    w' := Do(w, step);
  }

  lemma PrepareIsWindow(cfg: Config, s: Node, p: Id)
    requires Shaped(s) && Prepare(cfg, s, p).Some?
    ensures var req := Prepare(cfg, s, p).value;
            && s.base <= req.prevLogIndex && req.prevLogIndex + |req.entries| < |s.log|
            && req == AppendRequest(cfg.cluster, s.term, cfg.self, req.prevLogIndex, s.log[req.prevLogIndex].term,
                                    s.log[req.prevLogIndex + 1..req.prevLogIndex + |req.entries| + 1], s.commit)
  {
  }

  // ---- Clients ----

  /** What submitLocked appends passes the store. */
  lemma ProposalSaves(w: World, n: Id, command: Option<SM.Command>)
    requires Ready(w, n) && w.nodes[n].role == Leader && (command.Some? ==> SM.ValidCommand(command.value))
    ensures w.nodes[n].term in w.reigns
    ensures var s := w.nodes[n];
            LeaderAppend(ConfigOf(w, n), s, command) == s.(log := s.log + [Entry(|s.log|, s.term, command)])
  {
    hide LeaderAppend, Majority;
    LeaderFacts(w, n);
    OwnEntrySaves(ConfigOf(w, n), w.nodes[n], command);
  }

  lemma ProposeIsStep(w: World, n: Id, command: Option<SM.Command>, readKey: Option<SM.Text>) returns (w': World)
    requires Ready(w, n) && w.nodes[n].role == Leader && (command.Some? ==> SM.ValidCommand(command.value))
    ensures var s, cfg := w.nodes[n], ConfigOf(w, n);
            && Makes(w, w', n, Registered(cfg, LeaderAppend(cfg, s, command), Waiter(|w.history|, readKey))) && Ready(w', n)
            && !LeaderAppend(cfg, s, command).failed && Last(LeaderAppend(cfg, s, command)) == |s.log|
            && w'.history == w.history + [Invoke(n, s.term, Entry(|s.log|, s.term, command), readKey)]
  {
    ProposalSaves(w, n, command);
    var step := Propose(n, command, readKey);
    MakeOne(w, step);
    w' := Do(w, step);
    ReachedIsReady(w, w', n);
  }

  predicate Submittable(s: Node, command: Option<SM.Command>)
    requires Shaped(s)
  {
    Available(s) && s.role == Leader && (command.Some? ==> SM.ValidCommand(command.value)) && Last(s) - s.commit < 256
  }

  lemma SubmitOutcome(cfg: Config, s: Node, command: Option<SM.Command>, readKey: Option<SM.Text>, ticket: nat)
    requires Shaped(s) && Submittable(s, command) && !LeaderAppend(cfg, s, command).failed
    ensures var s1 := LeaderAppend(cfg, s, command);
            Submit(cfg, s, command, readKey, ticket)
            == (AdvanceCommit(cfg, Registered(cfg, s1, Waiter(ticket, readKey))), Some(Last(s1)), None)
  {
  }

  lemma AcceptedSubmitIsSteps(w: World, n: Id, command: Option<SM.Command>, readKey: Option<SM.Text>) returns (w': World)
    requires Ready(w, n) && Submittable(w.nodes[n], command)
    ensures var (s', index, error) := Submit(ConfigOf(w, n), w.nodes[n], command, readKey, |w.history|);
            && Makes(w, w', n, s') && !s'.failed && (w.nodes[n].applied == w.nodes[n].commit ==> s'.applied == s'.commit)
            && error.None? && index == Some(|w.nodes[n].log|)
            && |w.history| < |w'.history|
            && w'.history[|w.history|] == Invoke(n, w.nodes[n].term, Entry(index.value, w.nodes[n].term, command), readKey)
  {
    var w1 := ProposeIsStep(w, n, command, readKey);
    SubmitOutcome(ConfigOf(w, n), w.nodes[n], command, readKey, |w.history|);
    w' := AdvanceCommitIsSteps(w1, n);
    MakeThen(w, w1, w', n, w1.nodes[n], w'.nodes[n]);
    assert w'.history[|w.history|] == w1.history[|w.history|];
  }

  /** submitLocked: an accepted proposal is recorded as invoked, under its ticket, before anything else. */
  lemma SubmitIsSteps(w: World, n: Id, command: Option<SM.Command>, readKey: Option<SM.Text>) returns (w': World)
    requires Ready(w, n)
    ensures var (s', index, error) := Submit(ConfigOf(w, n), w.nodes[n], command, readKey, |w.history|);
            && Makes(w, w', n, s') && !s'.failed && (w.nodes[n].applied == w.nodes[n].commit ==> s'.applied == s'.commit)
            && (error.None? <==> Submittable(w.nodes[n], command))
            && (error.None? ==>
                  && index.Some? && |w.history| < |w'.history|
                  && w'.history[|w.history|] == Invoke(n, w.nodes[n].term, Entry(index.value, w.nodes[n].term, command), readKey))
  {
    if Submittable(w.nodes[n], command) {
      w' := AcceptedSubmitIsSteps(w, n, command, readKey);
    } else {
      w' := w;
      MakeNothing(w, n);
    }
  }

  /** SetPaused and Ticket.Cancel. */
  lemma PausedIsStep(w: World, n: Id, paused: bool) returns (w': World)
    requires Ready(w, n)
    ensures Makes(w, w', n, Paused(w.nodes[n], paused))
  {
    NodeServes(w, n);
    w' := LocalIsStep(w, n, Paused(w.nodes[n], paused));
  }

  lemma CancelledIsStep(w: World, n: Id, index: nat, ticket: nat) returns (w': World)
    requires Ready(w, n)
    ensures Makes(w, w', n, Cancelled(w.nodes[n], index, ticket))
  {
    NodeServes(w, n);
    w' := LocalIsStep(w, n, Cancelled(w.nodes[n], index, ticket));
  }

  // ---- Recovery ----

  lemma ReopenIsStep(w: World, n: Id) returns (w': World)
    requires Ready(w, n)
    ensures Makes(w, w', n, Reopened(w.nodes[n])) && Ready(w', n)
  {
    var step := Reopen(n);
    MakeOne(w, step);
    w' := Do(w, step);
    ReachedIsReady(w, w', n);
  }

  lemma RestartFrame(cfg: Config, s: Node)
    requires Shaped(s)
    ensures var s' := Restart(cfg, s);
            && s'.log == s.log && s'.term == s.term && s'.vote == s.vote && s'.commit == s.commit && s'.base == s.base
  {
    ApplyAllKeepsTerm(Reopened(s));
  }

  lemma SettledMachine(w: World, n: Id)
    requires Ready(w, n)
    ensures Shaped(w.nodes[n]) && w.nodes[n].machine == MachineAt(w.nodes[n].log, w.nodes[n].applied)
  {
    NodeServes(w, n);
  }

  /** A restart rebuilds, from the checkpoint and the committed log above it, the machine of the whole
      committed history; everything committed is applied. */
  lemma RestartIsSteps(w: World, n: Id) returns (w': World)
    requires Ready(w, n)
    ensures var s, s' := w.nodes[n], Restart(ConfigOf(w, n), w.nodes[n]);
            && Makes(w, w', n, s') && !s'.failed && s'.applied == s'.commit == s.commit && s'.log == s.log
            && s'.term == s.term && s'.vote == s.vote && s'.machine == MachineAt(s.log, s.commit)
  {
    RestartFrame(ConfigOf(w, n), w.nodes[n]);
    var w1 := ReopenIsStep(w, n);
    w' := ApplyLockedIsSteps(w1, n);
    MakeThen(w, w1, w', n, w1.nodes[n], w'.nodes[n]);
    SettledMachine(w', n) by {
      ReachedIsReady(w, w', n);
    }
  }

  // ---- Every call ----

  /** Everything that can happen to a node between two of its critical sections. */
  datatype Call =
    | OnTimeout(n: Id)
    | OnVote(n: Id, vreq: VoteRequest)
    | OnVoteReply(n: Id, from: Id, vreq: VoteRequest, vresp: VoteResponse)
    | OnAppend(n: Id, areq: AppendRequest)
    | OnAppendReply(n: Id, from: Id, areq: AppendRequest, aresp: AppendResponse)
    | OnSend(n: Id, to: Id)
    | OnSubmit(n: Id, command: Option<SM.Command>, readKey: Option<SM.Text>)
    | OnPause(n: Id, paused: bool)
    | OnCancel(n: Id, index: nat, ticket: nat)
    | OnRestart(n: Id)

  /** The call delivers only what was sent, and a reply only to the sender of its request. */
  ghost predicate Genuine(w: World, c: Call) {
    && c.n in w.nodes && Shaped(w.nodes[c.n]) && w.nodes[c.n].applied == w.nodes[c.n].commit
    && match c
       case OnVote(_, req) => VoteReq(req) in w.net
       case OnVoteReply(n, from, req, resp) => VoteRep(req, from, resp) in w.net && req.candidate == n
       case OnAppend(_, req) => AppendReq(req) in w.net
       case OnAppendReply(n, from, req, resp) => AppendRep(req, from, resp) in w.net && req.leader == n
       case OnSend(n, p) => w.nodes[n].role == Leader && Prepare(ConfigOf(w, n), w.nodes[n], p).Some?
       case _ => true
  }

  /** What the call leaves of its node, and the error it returns, if any. */
  ghost function Handled(w: World, c: Call): (Node, RpcError)
    requires Genuine(w, c)
  {
    var cfg, s := ConfigOf(w, c.n), w.nodes[c.n];
    match c
    case OnTimeout(_) => (Timeout(cfg, s).0, NoError)
    case OnVote(_, req) => var (s', _, error) := HandleVote(cfg, s, req); (s', error)
    case OnVoteReply(_, from, req, resp) => (HandleVoteResponse(cfg, s, from, req, resp), NoError)
    case OnAppend(_, req) => var (s', _, error) := HandleAppend(cfg, s, req); (s', error)
    case OnAppendReply(_, from, req, resp) => (HandleAppendResponse(cfg, s, from, req, resp), NoError)
    case OnSend(_, _) => (s, NoError)
    case OnSubmit(_, command, readKey) => (Submit(cfg, s, command, readKey, |w.history|).0, NoError)
    case OnPause(_, paused) => (Paused(s, paused), NoError)
    case OnCancel(_, index, ticket) => (Cancelled(s, index, ticket), NoError)
    case OnRestart(_) => (Restart(cfg, s), NoError)
  }

  lemma CallIsSteps(w: World, c: Call) returns (w': World)
    requires Good(w) && Genuine(w, c)
    ensures var (s', error) := Handled(w, c);
            && Makes(w, w', c.n, s') && !s'.failed && s'.applied == s'.commit
            && (error == NoError || error == NodeUnavailable || error == UnknownPeer)
  {
    GoodIsReady(w, c.n);
    match c {
      case OnTimeout(n) => w' := TimeoutIsSteps(w, n);
      case OnVote(n, req) => w' := HandleVoteIsSteps(w, n, req);
      case OnVoteReply(n, from, req, resp) => w' := HandleVoteResponseIsSteps(w, n, from, req, resp);
      case OnAppend(n, req) => w' := HandleAppendIsSteps(w, n, req);
      case OnAppendReply(n, from, req, resp) => w' := HandleAppendResponseIsSteps(w, n, from, req, resp);
      case OnSend(n, p) => w' := PrepareIsStep(w, n, p);
      case OnSubmit(n, command, readKey) => w' := SubmitIsSteps(w, n, command, readKey);
      case OnPause(n, paused) => w' := PausedIsStep(w, n, paused);
      case OnCancel(n, index, ticket) => w' := CancelledIsStep(w, n, index, ticket);
      case OnRestart(n) => w' := RestartIsSteps(w, n);
    }
  }

  lemma RunExtends(run: seq<World>, chain: seq<World>) returns (longer: seq<World>)
    requires IsRun(run) && IsChain(chain, AnyStep()) && chain[0] == run[|run| - 1]
    ensures IsRun(longer) && run <= longer && longer[|longer| - 1] == chain[|chain| - 1]
  {
    longer := run + chain[1..];
    forall k | 0 < k < |longer| ensures StepAt(longer, k) {
      assert k < |run| ==> StepAt(run, k);
      assert k >= |run| ==> LinkAt(chain, AnyStep(), k - |run| + 1);
    }
  }

  /** No run ever trips a defensive guard.  Whatever has happened so far, every further call does
      exactly what some continuation of the run does to its node; on a healthy disk the node does not
      fail (the store objects to nothing it is asked to save), the call returns none of the
      "malformed", "different command" and "overwrite committed" errors, and everything committed is
      applied when it ends. */
  lemma NoGuardTrips(run: seq<World>, c: Call) returns (longer: seq<World>)
    requires IsRun(run) && Genuine(run[|run| - 1], c)
    ensures IsRun(longer) && run <= longer
    ensures var w, w' := run[|run| - 1], longer[|longer| - 1];
            var (s', error) := Handled(w, c);
            && w'.nodes == w.nodes[c.n := s'] && !s'.failed && s'.applied == s'.commit
            && (error == NoError || error == NodeUnavailable || error == UnknownPeer)
  {
    var w := run[|run| - 1];
    RunIsGood(run, |run| - 1);
    var w' := CallIsSteps(w, c);
    var chain :| Joins(chain, AnyStep(), w, w');
    longer := RunExtends(run, chain);
  }
}
