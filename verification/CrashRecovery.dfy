/** A crash at any write of any handler.  Whatever hard state it leaves on disk, and whatever its clients have been
    told by then, some chain of the group's steps leaves the node with it and has those answers on record, so the
    node that is then reopened is one of a reachable group. */
module CrashRecovery {
  import opened Wrappers
  import opened RaftTypes
  import opened NodeModel
  import opened CrashPoints
  import opened Cluster
  import opened Invariant
  import opened History
  import opened Serving
  import opened Safety
  import opened Chains
  import opened Handlers
  import opened Simulation
  import opened Linearizability
  import D = DiskStore
  import R = RaftServer
  import SM = StateMachine
  import St = Store

  /** A chain of steps of node `n` leaves its disk as it is at moment `m`, and every answer its clients have got by
      then is on record. */
  ghost predicate Leaves(w: World, w': World, n: Id, m: Moment) {
    && n in w'.nodes && Makes(w, w', n, w'.nodes[n]) && Shaped(w'.nodes[n]) && HardState(w'.nodes[n]) == m.disk
    && AnswersPart(w', m.node)
  }

  /** Node `n` has this hard state and has given these answers, whatever else `s` says. */
  ghost predicate Stands(w: World, n: Id, s: Node) {
    n in w.nodes && Shaped(w.nodes[n]) && Shaped(s) && HardState(s) == HardState(w.nodes[n]) && s.answers == w.nodes[n].answers
  }

  lemma AnswersLast(w: World, w': World, s: Node)
    requires AnswersPart(w, s) && w.history <= w'.history
    ensures AnswersPart(w', s)
  {
  }

  lemma LeavesNow(w: World, n: Id, m: Moment)
    requires Ready(w, n) && Shaped(w.nodes[n]) && m in NoWrite(w.nodes[n])
    ensures Leaves(w, w, n, m)
  {
    hide Inv;
    MakeNothing(w, n);
    NodeServes(w, n);
  }

  /** A write that some chain makes: whether it has landed or not. */
  lemma LeavesWrite(w: World, w1: World, n: Id, before: Node, after: Node, m: Moment) returns (w': World)
    requires Ready(w, n) && Stands(w, n, before) && n in w1.nodes && Makes(w, w1, n, w1.nodes[n])
    requires Shaped(after) && Shaped(w1.nodes[n]) && HardState(after) == HardState(w1.nodes[n]) && m in OneWrite(before, after)
    ensures Leaves(w, w', n, m)
  {
    hide Inv, HardState;
    NodeServes(w, n);
    AnswersLast(w, w1, before);
    if m.disk == HardState(before) {
      w' := w;
      MakeNothing(w, n);
    } else {
      w' := w1;
    }
  }

  lemma LeavesThen(w: World, w1: World, w2: World, n: Id, m: Moment)
    requires n in w1.nodes && Makes(w, w1, n, w1.nodes[n]) && Leaves(w1, w2, n, m)
    ensures Leaves(w, w2, n, m)
  {
    MakeThen(w, w1, w2, n, w1.nodes[n], w2.nodes[n]);
  }

  // ---- The handlers' pieces ----

  lemma StepDownMoment(w: World, n: Id, term: nat, leader: Option<Id>, m: Moment) returns (w': World)
    requires Ready(w, n) && term >= w.nodes[n].term && m in StepDownMoments(ConfigOf(w, n), w.nodes[n], term, leader)
    ensures Leaves(w, w', n, m)
  {
    hide Inv, StepDown, OneWrite;
    var w1 := StepDownIsSteps(w, n, term, leader);
    w' := LeavesWrite(w, w1, n, w.nodes[n], w1.nodes[n], m);
  }

  lemma CommitIsStep(w: World, n: Id, i: nat) returns (w': World)
    requires Ready(w, n) && w.nodes[n].role == Leader && Available(w.nodes[n])
    requires CommitTarget(ConfigOf(w, n), w.nodes[n], Last(w.nodes[n])) == Some(i)
    ensures var s := w.nodes[n];
            var s' := Persist(ConfigOf(w, n), s, s.term, s.vote, i, 0, []);
            Makes(w, w', n, s') && Ready(w', n)
  {
    var s := w.nodes[n];
    HardStateSaves(ConfigOf(w, n), s, s.term, s.vote, i);
    var step := Commit(n, i);
    MakeOne(w, step);
    w' := Do(w, step);
    ReachedIsReady(w, w', n);
  }

  /** The commit index is on disk, everything is applied and answered, and the checkpoint may follow. */
  lemma ApplyMoment(w: World, n: Id, m: Moment) returns (w': World)
    requires Ready(w, n) && m in OneWrite(ApplyAll(w.nodes[n]), ApplyLocked(ConfigOf(w, n), w.nodes[n]))
    ensures Leaves(w, w', n, m)
  {
    hide Inv, MaybeSnapshot, OneWrite, HardState;
    AppliedToCommit(w.nodes[n]);
    var w1 := ApplyAllIsSteps(w, n);
    ReachedIsReady(w, w1, n);
    var w2 := SnapshotIsSteps(w1, n);
    w' := LeavesWrite(w1, w2, n, w1.nodes[n], w2.nodes[n], m);
    LeavesThen(w, w1, w', n, m);
  }

  lemma AdvanceMoment(w: World, n: Id, m: Moment) returns (w': World)
    requires Ready(w, n) && m in AdvanceMoments(ConfigOf(w, n), w.nodes[n])
    ensures Leaves(w, w', n, m)
  {
    hide Inv, Persist, ApplyLocked, OneWrite, HardState;
    var s, cfg := w.nodes[n], ConfigOf(w, n);
    if s.role != Leader || !Available(s) || CommitTarget(cfg, s, Last(s)).None? {
      w' := w;
      LeavesNow(w, n, m);
    } else {
      var w1 := CommitIsStep(w, n, CommitTarget(cfg, s, Last(s)).value);
      if m in OneWrite(s, w1.nodes[n]) {
        w' := LeavesWrite(w, w1, n, s, w1.nodes[n], m);
      } else {
        w' := ApplyMoment(w1, n, m);
        LeavesThen(w, w1, w', n, m);
      }
    }
  }

  lemma LeadMoment(w: World, n: Id, m: Moment) returns (w': World)
    requires Ready(w, n) && w.nodes[n].role == Candidate && |w.nodes[n].votes| > |w.members| / 2
    requires m in LeadMoments(ConfigOf(w, n), w.nodes[n])
    ensures Leaves(w, w', n, m)
  {
    hide Inv, AdvanceMoments, LeaderAppend, OneWrite;
    var s, cfg := w.nodes[n], ConfigOf(w, n);
    CandidateHasTerm(w, n);
    OpeningEntrySaves(w, n);
    var w1 := ElectIsStep(w, n);
    var c, s1 := Crowned(cfg, s), LeaderAppend(cfg, Crowned(cfg, s), None);
    if m in OneWrite(c, s1) {
      w' := LeavesWrite(w, w1, n, c, s1, m);
    } else {
      w' := AdvanceMoment(w1, n, m);
      LeavesThen(w, w1, w', n, m);
    }
  }

  // ---- The handlers ----

  lemma TimeoutMoment(w: World, n: Id, m: Moment) returns (w': World)
    requires Ready(w, n) && m in TimeoutMoments(ConfigOf(w, n), w.nodes[n])
    ensures Leaves(w, w', n, m)
  {
    hide Inv, Campaigning, LeadMoments, OneWrite;
    var s := w.nodes[n];
    if !Available(s) || s.role == Leader {
      w' := w;
      LeavesNow(w, n, m);
    } else {
      var w1 := CampaignIsStep(w, n);
      if m in OneWrite(s, w1.nodes[n]) {
        w' := LeavesWrite(w, w1, n, s, w1.nodes[n], m);
      } else {
        w' := LeadMoment(w1, n, m);
        LeavesThen(w, w1, w', n, m);
      }
    }
  }

  lemma VoteMoment(w: World, n: Id, req: VoteRequest, m: Moment) returns (w': World)
    requires Ready(w, n) && VoteReq(req) in w.net && m in VoteMoments(ConfigOf(w, n), w.nodes[n], req)
    ensures Leaves(w, w', n, m)
  {
    hide Inv, DecideVote, StepDown, OneWrite;
    var s, cfg := w.nodes[n], ConfigOf(w, n);
    if !Available(s) || !Member(cfg, req.candidate, req.cluster) || req.term < s.term {
      w' := w;
      LeavesNow(w, n, m);
    } else {
      var w1 := w;
      MakeNothing(w, n);
      if req.term > s.term {
        w1 := StepDownIsSteps(w, n, req.term, None);
      }
      if m in OneWrite(s, w1.nodes[n]) {
        w' := LeavesWrite(w, w1, n, s, w1.nodes[n], m);
      } else {
        var w2 := VoteDecisionIsSteps(w1, n, req);
        w' := LeavesWrite(w1, w2, n, w1.nodes[n], w2.nodes[n], m);
        LeavesThen(w, w1, w', n, m);
      }
    }
  }

  lemma VoteReplyMoment(w: World, n: Id, from: Id, req: VoteRequest, resp: VoteResponse, m: Moment) returns (w': World)
    requires Ready(w, n) && VoteRep(req, from, resp) in w.net && req.candidate == n
    requires m in VoteReplyMoments(ConfigOf(w, n), w.nodes[n], from, req, resp)
    ensures Leaves(w, w', n, m)
  {
    hide Inv, StepDownMoments, LeadMoments;
    var s, cfg := w.nodes[n], ConfigOf(w, n);
    if Available(s) && resp.term > s.term {
      w' := StepDownMoment(w, n, resp.term, None, m);
    } else if !Available(s) || s.role != Candidate || s.term != req.term || resp.term != req.term || !resp.granted
              || |s.votes + {from}| <= |cfg.members| / 2 {
      w' := w;
      LeavesNow(w, n, m);
    } else {
      var step := CountVote(n, from, req, resp);
      MakeOne(w, step);
      var w1 := Do(w, step);
      ReachedIsReady(w, w1, n);
      w' := LeadMoment(w1, n, m);
      LeavesThen(w, w1, w', n, m);
    }
  }

  lemma AppendMoment(w: World, n: Id, req: AppendRequest, m: Moment) returns (w': World)
    requires Ready(w, n) && AppendReq(req) in w.net && m in AppendMoments(ConfigOf(w, n), w.nodes[n], req)
    ensures Leaves(w, w', n, m)
  {
    hide Inv, Consistent, StepDown, OneWrite;
    var s, cfg := w.nodes[n], ConfigOf(w, n);
    if !Available(s) || !Member(cfg, req.leader, req.cluster) || req.term < s.term {
      w' := w;
      LeavesNow(w, n, m);
    } else {
      var w1 := StepDownIsSteps(w, n, req.term, Some(req.leader));
      if m in OneWrite(s, w1.nodes[n]) {
        w' := LeavesWrite(w, w1, n, s, w1.nodes[n], m);
      } else {
        var w2 := AppendDecisionIsSteps(w1, n, req);
        w' := LeavesWrite(w1, w2, n, w1.nodes[n], w2.nodes[n], m);
        LeavesThen(w, w1, w', n, m);
      }
    }
  }

  lemma AppendReplyMoment(w: World, n: Id, from: Id, req: AppendRequest, resp: AppendResponse, m: Moment) returns (w': World)
    requires Ready(w, n) && AppendRep(req, from, resp) in w.net && req.leader == n
    requires w.nodes[n].applied == w.nodes[n].commit
    requires m in AppendReplyMoments(ConfigOf(w, n), w.nodes[n], from, req, resp)
    ensures Leaves(w, w', n, m)
  {
    hide Inv, StepDownMoments, AdvanceMoments, OneWrite, HandleAppendResponse, AdvanceCommit, MaybeSnapshot, StepDown;
    var s, cfg := w.nodes[n], ConfigOf(w, n);
    if Available(s) && resp.term > s.term {
      w' := StepDownMoment(w, n, resp.term, None, m);
    } else if !Available(s) || s.role != Leader || s.term != req.term || resp.term != req.term || !resp.success {
      w' := w;
      LeavesNow(w, n, m);
    } else {
      var w1 := CountMatchIsStep(w, n, from, req, resp);
      R.ResponseCounts(cfg, s, w1.nodes[n], from, req, resp);
      w' := CountedMoment(w1, n, m);
      LeavesThen(w, w1, w', n, m);
    }
  }

  /** The commit index moves as far as it can, and then there may be a second checkpoint. */
  lemma CountedMoment(w: World, n: Id, m: Moment) returns (w': World)
    requires Ready(w, n) && w.nodes[n].applied == w.nodes[n].commit
    requires var cfg, s1 := ConfigOf(w, n), AdvanceCommit(ConfigOf(w, n), w.nodes[n]);
             && (s1.role == Leader ==> s1.applied == s1.commit)
             && m in AdvanceMoments(cfg, w.nodes[n]) + OneWrite(s1, MaybeSnapshot(cfg, s1))
    ensures Leaves(w, w', n, m)
  {
    hide Inv, AdvanceMoments, AdvanceCommit, MaybeSnapshot, OneWrite, HardState;
    if m in AdvanceMoments(ConfigOf(w, n), w.nodes[n]) {
      w' := AdvanceMoment(w, n, m);
    } else {
      var w1 := AdvanceCommitIsSteps(w, n);
      ReachedIsReady(w, w1, n);
      var w2 := SnapshotIsSteps(w1, n);
      w' := LeavesWrite(w1, w2, n, w1.nodes[n], w2.nodes[n], m);
      LeavesThen(w, w1, w', n, m);
    }
  }

  lemma SubmitMoment(w: World, n: Id, command: Option<SM.Command>, readKey: Option<SM.Text>, m: Moment) returns (w': World)
    requires Ready(w, n) && m in SubmitMoments(ConfigOf(w, n), w.nodes[n], command, readKey, |w.history|)
    ensures Leaves(w, w', n, m)
  {
    hide Inv, LeaderAppend, AdvanceMoments, OneWrite;
    var s, cfg := w.nodes[n], ConfigOf(w, n);
    if !Submittable(s, command) {
      w' := w;
      LeavesNow(w, n, m);
    } else {
      var w1 := ProposeIsStep(w, n, command, readKey);
      var s1 := LeaderAppend(cfg, s, command);
      if m in OneWrite(s, s1) {
        w' := LeavesWrite(w, w1, n, s, s1, m);
      } else {
        w' := AdvanceMoment(w1, n, m);
        LeavesThen(w, w1, w', n, m);
      }
    }
  }

  // ---- Every call ----

  /** The moments a call takes its node through. */
  ghost function CallMoments(w: World, c: Call): set<Moment>
    requires Genuine(w, c)
  {
    var cfg, s := ConfigOf(w, c.n), w.nodes[c.n];
    match c
    case OnTimeout(_) => TimeoutMoments(cfg, s)
    case OnVote(_, req) => VoteMoments(cfg, s, req)
    case OnVoteReply(_, from, req, resp) => VoteReplyMoments(cfg, s, from, req, resp)
    case OnAppend(_, req) => AppendMoments(cfg, s, req)
    case OnAppendReply(_, from, req, resp) => AppendReplyMoments(cfg, s, from, req, resp)
    case OnSubmit(_, command, readKey) => SubmitMoments(cfg, s, command, readKey, |w.history|)
    case _ => NoWrite(s)
  }

  lemma MomentIsReached(w: World, c: Call, m: Moment) returns (w': World)
    requires Good(w) && Genuine(w, c) && m in CallMoments(w, c)
    ensures Leaves(w, w', c.n, m)
  {
    GoodIsReady(w, c.n);
    match c {
      case OnTimeout(n) => w' := TimeoutMoment(w, n, m);
      case OnVote(n, req) => w' := VoteMoment(w, n, req, m);
      case OnVoteReply(n, from, req, resp) => w' := VoteReplyMoment(w, n, from, req, resp, m);
      case OnAppend(n, req) => w' := AppendMoment(w, n, req, m);
      case OnAppendReply(n, from, req, resp) => w' := AppendReplyMoment(w, n, from, req, resp, m);
      case OnSubmit(n, command, readKey) => w' := SubmitMoment(w, n, command, readKey, m);
      case _ =>
        w' := w;
        LeavesNow(w, c.n, m);
    }
  }

  /** What recovery relies on. */
  ghost predicate Recovers(s: Node, disk: St.Stored) {
    Shaped(s) && HardState(s) == disk && SM.ValidState(s.snapshot) && (s.base == 0 ==> s.snapshot == SM.EMPTY_STATE)
  }

  lemma ReachedRecovers(w: World, n: Id)
    requires Good(w) && n in w.nodes
    ensures Shaped(w.nodes[n]) && Recovers(w.nodes[n], HardState(w.nodes[n]))
  {
    NodeServes(w, n);
    MachineIsValid(w.nodes[n].log, w.nodes[n].base);
  }

  /** Wherever a call is cut short, by a crash or a failed write, the node that comes back is the node of some
      continuation of the run: it holds what is on disk, has applied everything committed, and the rest of the
      group is as it was.  All answers that the node gave, those of the call that was cut short and what a failed
      node tells its last waiters included, are on record there.  So everything proved of all runs goes on
      holding. */
  lemma CrashIsReopening(run: seq<World>, c: Call, m: Moment) returns (longer: seq<World>, s: Node)
    requires IsRun(run) && Genuine(run[|run| - 1], c) && m in CallMoments(run[|run| - 1], c)
    ensures IsRun(longer) && run <= longer && Recovers(s, m.disk)
    ensures var w, w', s' := run[|run| - 1], longer[|longer| - 1], Restart(ConfigOf(run[|run| - 1], c.n), s);
            && w'.nodes == w.nodes[c.n := s'] && w.net <= w'.net && w.history <= w'.history
            && !s'.failed && s'.applied == s'.commit == s.commit && s'.log == s.log && s'.term == s.term && s'.vote == s.vote
            && AnswersPart(w', m.node) && AnswersPart(w', Crashed(m.node))
  {
    var w, n := run[|run| - 1], c.n;
    RunIsGood(run, |run| - 1);
    var w1 := MomentIsReached(w, c, m);
    ReachedIsReady(w, w1, n);
    s := w1.nodes[n];
    ReachedRecovers(w1, n);
    var w2 := RestartIsSteps(w1, n);
    MakeThen(w, w1, w2, n, s, w2.nodes[n]);
    AnswersLast(w1, w2, m.node);
    FailPendingAnswers(w2, m.node.(failed := true, role := Follower, leader := None), Unavailable);
    var chain :| Joins(chain, AnyStep(), w, w2);
    longer := RunExtends(run, chain);
  }

  /** So the answers of a node that failed are linearized too. */
  lemma CutShortIsLinearized(run: seq<World>, c: Call, m: Moment, ticket: nat) returns (longer: seq<World>, order: Log)
    requires IsRun(run) && Genuine(run[|run| - 1], c) && m in CallMoments(run[|run| - 1], c)
    requires ticket in m.node.answers && m.node.answers[ticket].Answered?
    ensures IsRun(longer) && run <= longer && Linearized(longer[|longer| - 1], order)
    ensures AnsweredIn(longer[|longer| - 1], order, ticket, m.node.answers[ticket].outcome)
  {
    hide CallMoments, Linearized, Genuine, Restart;
    var s;
    longer, s := CrashIsReopening(run, c, m);
    order := RunsAreLinearizable(longer, |longer| - 1);
    RecordedIsAnswered(longer[|longer| - 1], order, ticket, m.node.answers[ticket].outcome);
  }

  /** OpenWithRuntime after a call was cut short: over whatever the call left in the journal, opening succeeds,
      and the node is the one that the run goes on with. */
  method Recover(ghost run: seq<World>, ghost c: Call, ghost m: Moment, cfg: Config, peers: seq<Id>, records: seq<St.Record>,
                 plan: seq<D.Fault>)
    returns (server: Option<R.Server>, ghost longer: seq<World>)
    requires IsRun(run) && Genuine(run[|run| - 1], c) && cfg == ConfigOf(run[|run| - 1], c.n)
    requires R.Distinct(peers) && cfg.self in peers && cfg.members == R.Named(peers)
    requires m in CallMoments(run[|run| - 1], c) && St.Replay(cfg.identity, records) == Some(m.disk)
    ensures server.Some? && server.value.Valid() && !server.value.failed
    ensures IsRun(longer) && run <= longer
    ensures longer[|longer| - 1].nodes == run[|run| - 1].nodes[c.n := server.value.Abs()]
    ensures AnswersPart(longer[|longer| - 1], Crashed(m.node))
  {
    ghost var s;
    longer, s := CrashIsReopening(run, c, m);
    var wal := new D.Journal(records);
    var disk := D.Load(cfg.identity, wal);
    if disk.None? {
      return None, longer;
    }
    server := R.Open(cfg, peers, disk.value, plan, s);
  }
}
