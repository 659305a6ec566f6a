/** The group call by call: what single calls do to nodes that are doing well, and what they add up to. */
module Calls {
  import opened Wrappers
  import opened RaftTypes
  import opened NodeModel
  import opened Cluster
  import opened Safety
  import opened Chains
  import opened Handlers
  import opened Simulation
  import opened Effects

  // ---- Runs, call by call ----

  /** The world after one call. */
  ghost predicate Called(w: World, c: Call, w': World) {
    Genuine(w, c) && Makes(w, w', c.n, Handled(w, c).0)
  }

  ghost function AnyCall(): (World, World) -> bool {
    (w, w') => exists c :: Called(w, c, w')
  }

  /** `w'` comes of `w` by calls alone. */
  ghost predicate ByCalls(w: World, w': World) {
    Good(w') && Linked(AnyCall(), w, w')
  }

  lemma OneMore(w: World, w1: World, c: Call, w2: World)
    requires ByCalls(w, w1) && Called(w1, c, w2)
    ensures ByCalls(w, w2)
  {
    ReachedIsGood(w1, w2);
    LinkedThen(AnyCall(), w, w1, w2);
  }

  /** What the calls do is a run of the group. */
  lemma CallsAreRun(w: World, w': World) returns (run: seq<World>)
    requires Init(w) && ByCalls(w, w')
    ensures IsRun(run) && run[0] == w && run[|run| - 1] == w'
  {
    var xs :| Joins(xs, AnyCall(), w, w');
    run := ChainIsRun(xs, |xs| - 1);
  }

  lemma CallReaches(w: World, w': World)
    requires AnyCall()(w, w')
    ensures Reaches(w, w')
  {
    hide Genuine, Handled;
  }

  lemma {:induction false} ChainIsRun(xs: seq<World>, k: nat) returns (run: seq<World>)
    requires IsChain(xs, AnyCall()) && Init(xs[0]) && k < |xs|
    ensures IsRun(run) && run[0] == xs[0] && run[|run| - 1] == xs[k]
  {
    hide Called, Init, Next;
    if k == 0 {
      run := [xs[0]];
    } else {
      var before := ChainIsRun(xs, k - 1);
      assert LinkAt(xs, AnyCall(), k);
      CallReaches(xs[k - 1], xs[k]);
      var chain :| Joins(chain, AnyStep(), xs[k - 1], xs[k]);
      run := RunExtends(before, chain);
    }
  }

  // ---- Single nodes ----

  /** A running node between two calls. */
  ghost predicate Is(s: Node, role: Role, term: nat, commit: nat, base: nat, log: Log) {
    && s.role == role && s.term == term && s.commit == commit && s.applied == commit && s.base == base && s.log == log
    && !s.paused && !s.failed
  }

  /** An index that only the leader holds is not replicated. */
  lemma Lonely(cfg: Config, s: Node, i: nat)
    requires cfg.self in cfg.members && |cfg.members| >= 2
    requires forall p :: p in cfg.members && p != cfg.self ==> MatchOf(s, p) < i
    ensures !Replicated(cfg, s, i)
  {
    assert (set p | p in cfg.members && (p == cfg.self || MatchOf(s, p) >= i)) == {cfg.self};
  }

  /** An index that a majority is known to hold is. */
  lemma HeldByMajority(cfg: Config, s: Node, i: nat, q: set<Id>)
    requires Majority(q, cfg.members) && forall p :: p in q && p != cfg.self ==> MatchOf(s, p) >= i
    ensures Replicated(cfg, s, i)
  {
    SubsetSize(q, set p | p in cfg.members && (p == cfg.self || MatchOf(s, p) >= i));
  }

  lemma {:induction false} NoTarget(cfg: Config, s: Node, i: nat)
    requires Shaped(s) && i <= Last(s) && forall k :: s.commit < k <= i ==> !Replicated(cfg, s, k)
    ensures CommitTarget(cfg, s, i) == None
  {
    if i > s.commit {
      NoTarget(cfg, s, i - 1);
    }
  }

  lemma CampaignsAlone(cfg: Config, s: Node)
    requires Savable(s) && Available(s) && s.role != Leader && |cfg.members| >= 2
    ensures var (s', req) := Timeout(cfg, s);
            && s' == s.(term := s.term + 1, vote := Some(cfg.self), role := Candidate, leader := None, votes := {cfg.self})
            && req == Some(Solicitation(cfg, s'))
  {
    HardStateSaves(cfg, s, s.term + 1, Some(cfg.self), s.commit);
  }

  /** A vote for a candidate of a later term with a log as good. */
  lemma VotesFor(cfg: Config, s: Node, req: VoteRequest)
    requires Savable(s) && Available(s) && Member(cfg, req.candidate, req.cluster) && req.term > s.term
    requires req.lastLogTerm > LastTerm(s.log) || (req.lastLogTerm == LastTerm(s.log) && req.lastLogIndex >= Last(s))
    ensures var (s', resp, error) := HandleVote(cfg, s, req);
            && resp == VoteResponse(req.term, true) && error == NoError
            && s'.role == Follower && s'.term == req.term && s'.log == s.log && s'.base == s.base
            && s'.commit == s.commit && s'.applied == s.applied && !s'.paused && !s'.failed
  {
    StepDownIsChange(cfg, s, req.term, None);
    var s1 := Bumped(s, req.term, None);
    HardStateSaves(cfg, s1, req.term, Some(req.candidate), s1.commit);
  }

  /** Nothing that the others are known to hold is left to commit. */
  ghost predicate NothingNew(cfg: Config, s: Node) {
    cfg.self in cfg.members && |cfg.members| >= 2 && forall p :: p in cfg.members && p != cfg.self ==> MatchOf(s, p) <= s.commit
  }

  lemma NothingToCommit(cfg: Config, s: Node)
    requires Shaped(s) && NothingNew(cfg, s)
    ensures AdvanceCommit(cfg, s) == s
  {
    forall k | s.commit < k <= Last(s) ensures !Replicated(cfg, s, k) {
      Lonely(cfg, s, k);
    }
    NoTarget(cfg, s, Last(s));
  }

  /** An elected leader has its opening entry, and knows of nothing that the others hold. */
  lemma LeadsAlone(cfg: Config, s: Node)
    requires Savable(s) && s.term > 0 && cfg.self in cfg.members && |cfg.members| >= 2
    ensures Shaped(Elected(cfg, s)) && BecomeLeader(cfg, s) == Elected(cfg, s)
  {
    OwnEntrySaves(cfg, Crowned(cfg, s), None);
    OpeningEntryElects(cfg, s);
    NothingToCommit(cfg, Elected(cfg, s));
  }

  /** What a leader proposes waits for the others. */
  lemma ProposesBarrier(cfg: Config, s: Node, ticket: nat)
    requires Savable(s) && Available(s) && s.role == Leader && s.term > 0 && NothingNew(cfg, s) && |s.log| <= 256
    ensures Submit(cfg, s, None, None, ticket).0
         == Registered(cfg, s.(log := s.log + [Entry(|s.log|, s.term, None)]), Waiter(ticket, None))
  {
    OwnEntrySaves(cfg, s, None);
    NothingToCommit(cfg, Registered(cfg, s.(log := s.log + [Entry(|s.log|, s.term, None)]), Waiter(ticket, None)));
  }

  /** Few entries without commands all go into one message. */
  lemma {:induction false} BarriersFit(log: Log, next: nat, end: nat, bytes: nat)
    requires next <= end <= |log| && |log| - next <= BATCH_ENTRIES && bytes + 1024 * (|log| - end) <= BATCH_BYTES
    requires forall i :: end <= i < |log| ==> log[i].command == None
    ensures BatchEnd(log, next, end, bytes) == |log|
    decreases |log| - end
  {
    if end < |log| {
      BarriersFit(log, next, end + 1, bytes + 1024);
    }
  }

  predicate Barriers(log: Log) {
    |log| <= BATCH_ENTRIES && forall i :: 0 <= i < |log| ==> log[i].command == None
  }

  lemma AsksFrom(cfg: Config, s: Node, p: Id, k: nat)
    requires Shaped(s) && NextOf(s, p) == k + 1 <= |s.log| && s.base <= k && Barriers(s.log)
    ensures Prepare(cfg, s, p) == Some(AppendRequest(cfg.cluster, s.term, cfg.self, k, s.log[k].term, s.log[k + 1..], s.commit))
  {
    hide BatchEnd;
    assert s.log[k + 1..|s.log|] == s.log[k + 1..];
    BarriersFit(s.log, k + 1, k + 1, 1024);
  }

  /** The request continues the follower's log after an entry they share, otherwise than the follower does. */
  ghost predicate Replaces(s: Node, req: AppendRequest) {
    && Shaped(s) && Meets(s, req) && s.commit <= req.prevLogIndex && req.entries != []
    && WellFormed(s.log[..req.prevLogIndex + 1] + req.entries)
    && LastTerm(s.log[..req.prevLogIndex + 1] + req.entries) <= req.term
    && (req.prevLogIndex + 1 < |s.log| ==> s.log[req.prevLogIndex + 1].term != req.entries[0].term)
  }

  lemma ScanReplaces(s: Node, req: AppendRequest)
    requires Replaces(s, req)
    ensures ScanEntries(s, req, 0) == Differ(0)
  {
    var k, log := req.prevLogIndex, s.log[..req.prevLogIndex + 1] + req.entries;
    assert log[k + 1] == req.entries[0] && log[k + 1].term <= LastTerm(log);
  }

  lemma ReplacedNode(s: Node, req: AppendRequest)
    requires Savable(s) && Replaces(s, req) && req.term == s.term
    ensures Acceptable(s, req) && ScanEntries(s, req, 0) == Differ(0)
    ensures var s', last := AcceptedNode(s, req), req.prevLogIndex + |req.entries|;
            && s' == s.(log := s.log[..req.prevLogIndex + 1] + req.entries, commit := FollowedCommit(s.commit, req.leaderCommit, last))
            && Savable(s') && s'.commit >= s.commit
  {
    assert req.entries[0..] == req.entries;
    ScanReplaces(s, req);
    hide ScanEntries;
  }

  lemma FollowerAppliesAll(cfg: Config, s: Node)
    requires Shaped(s) && s.role == Follower && Available(s)
    ensures Is(ApplyLocked(cfg, s), Follower, s.term, s.commit, s.base, s.log)
  {
    ApplyAllKeepsTerm(s);
    AppliedToCommit(s);
  }

  lemma TakesOver(cfg: Config, s: Node, req: AppendRequest)
    requires Savable(s) && Available(s) && s.applied == s.commit && Member(cfg, req.leader, req.cluster)
    requires req.term >= s.term && Replaces(s, req)
    ensures var (s', resp, error) := HandleAppend(cfg, s, req);
            var last := req.prevLogIndex + |req.entries|;
            && resp == AppendResponse(req.term, true, last, 0) && error == NoError
            && Is(s', Follower, req.term, FollowedCommit(s.commit, req.leaderCommit, last), s.base,
                  s.log[..req.prevLogIndex + 1] + req.entries)
  {
    hide HandleAppend, StepDown, MergeEntries, ApplyLocked, AcceptedNode, ScanEntries;
    FollowerFollows(cfg, s, req);
    var s1 := StepDown(cfg, s, req.term, Some(req.leader));
    assert Savable(s1) && s1.commit == s.commit by {
      StepDownIsChange(cfg, s, req.term, Some(req.leader));
    }
    ReplacedNode(s1, req);
    MergedSuffix(cfg, s1, req);
    FollowerAppliesAll(cfg, AcceptedNode(s1, req));
  }

  // ---- Counting an answer ----

  /** An answer that brings nothing to commit and nothing to compact. */
  lemma CountsOnly(cfg: Config, s: Node, p: Id, req: AppendRequest, resp: AppendResponse)
    requires Shaped(s) && s.applied == s.commit && Available(s) && s.role == Leader
    requires s.term == req.term == resp.term && resp.success
    requires var s0 := Counted(s, p, req.prevLogIndex + |req.entries|);
             && (forall k :: s.commit < k <= Last(s) ==> !Replicated(cfg, s0, k))
             && (s.commit - s.base < cfg.snapshotEvery || exists q :: q in cfg.members && q != cfg.self && MatchOf(s0, q) < s.commit)
    ensures HandleAppendResponse(cfg, s, p, req, resp) == Counted(s, p, req.prevLogIndex + |req.entries|)
  {
    hide Replicated, Counted, Persist, ApplyLocked;
    CountedFrame(s, p, req.prevLogIndex + |req.entries|);
    NoTarget(cfg, Counted(s, p, req.prevLogIndex + |req.entries|), Last(s));
  }

  /** An answer that commits the whole log, which not everyone has yet. */
  lemma CountsAndCommits(cfg: Config, s: Node, p: Id, req: AppendRequest, resp: AppendResponse)
    requires Savable(s) && s.applied == s.commit < Last(s) && Available(s) && s.role == Leader
    requires s.term == req.term == resp.term == LastTerm(s.log) && resp.success
    requires var s0 := Counted(s, p, req.prevLogIndex + |req.entries|);
             && Replicated(cfg, s0, Last(s))
             && exists q :: q in cfg.members && q != cfg.self && MatchOf(s0, q) < Last(s)
    ensures var s', s0 := HandleAppendResponse(cfg, s, p, req, resp), Counted(s, p, req.prevLogIndex + |req.entries|);
            Is(s', Leader, s.term, Last(s), s.base, s.log) && s'.matched == s0.matched && s'.next == s0.next
  {
    hide Persist, Replicated, ApplyLocked, MaybeSnapshot, Counted;
    var s0 := Counted(s, p, req.prevLogIndex + |req.entries|);
    CountedFrame(s, p, req.prevLogIndex + |req.entries|);
    HardStateSaves(cfg, s0, s.term, s.vote, Last(s));
    LaggardStopsSnapshot(cfg, s0.(commit := Last(s)));
  }

  lemma CountedFrame(s: Node, p: Id, index: nat)
    ensures var s0 := Counted(s, p, index); s0 == s.(matched := s0.matched, next := s0.next)
  {
  }

  /** While someone lags behind the commit index, a leader applies and does not compact. */
  lemma LaggardStopsSnapshot(cfg: Config, s: Node)
    requires Shaped(s) && Available(s) && s.role == Leader
    requires exists q :: q in cfg.members && q != cfg.self && MatchOf(s, q) < s.commit
    ensures var s' := ApplyLocked(cfg, s);
            Is(s', Leader, s.term, s.commit, s.base, s.log) && s'.matched == s.matched && s'.next == s.next && MaybeSnapshot(cfg, s') == s'
  {
    ApplyAllKeepsTerm(s);
    AppliedToCommit(s);
  }

  /** An answer after which everyone has all that is committed. */
  lemma CountsAndCompacts(cfg: Config, s: Node, p: Id, req: AppendRequest, resp: AppendResponse)
    requires Savable(s) && s.applied == s.commit == Last(s) && Available(s) && s.role == Leader
    requires s.term == req.term == resp.term && resp.success && 0 < cfg.snapshotEvery <= s.commit - s.base
    requires var s0 := Counted(s, p, req.prevLogIndex + |req.entries|);
             forall q :: q in cfg.members && q != cfg.self ==> MatchOf(s0, q) >= s.commit
    ensures var s', s0 := HandleAppendResponse(cfg, s, p, req, resp), Counted(s, p, req.prevLogIndex + |req.entries|);
            Is(s', Leader, s.term, s.commit, s.commit, s.log) && s'.matched == s0.matched && s'.next == s0.next
  {
    CheckpointSaves(cfg, Counted(s, p, req.prevLogIndex + |req.entries|));
  }

  // ---- Calls ----

  /** Only the nodes of `ns` have changed, and nothing of the configuration. */
  ghost predicate Changed(w: World, w': World, ns: set<Id>) {
    && w'.members == w.members && w'.cluster == w.cluster && w'.snapshotEvery == w.snapshotEvery
    && w'.nodes.Keys == w.nodes.Keys && w.net <= w'.net
    && forall m :: m in w.nodes && m !in ns ==> w'.nodes[m] == w.nodes[m]
  }

  /** A node between two calls. */
  ghost predicate Rests(w: World, n: Id) {
    n in w.nodes && n in w.members && w.nodes[n].applied == w.nodes[n].commit && !w.nodes[n].paused && !w.nodes[n].failed
  }

  lemma Stands(w0: World, w: World, n: Id) returns (w': World)
    requires ByCalls(w0, w) && Rests(w, n) && w.nodes[n].role != Leader && |w.members| >= 2
    ensures ByCalls(w0, w') && Changed(w, w', {n})
    ensures var s, s' := w.nodes[n], w'.nodes[n];
            && s' == s.(term := s.term + 1, vote := Some(n), role := Candidate, leader := None, votes := {n})
            && Shaped(s') && VoteReq(Solicitation(ConfigOf(w', n), s')) in w'.net
  {
    GoodIsReady(w, n);
    CampaignsAlone(ConfigOf(w, n), w.nodes[n]);
    w' := TimeoutIsSteps(w, n);
    OneMore(w0, w, OnTimeout(n), w');
  }

  /** A candidate whose request is on its way, and a member in an earlier term with a log no better. */
  ghost predicate CanVote(w: World, n: Id, v: Id) {
    && Rests(w, n) && Rests(w, v) && n != v && Shaped(w.nodes[n]) && Shaped(w.nodes[v])
    && w.nodes[n].role == Candidate && w.nodes[v].term < w.nodes[n].term
    && VoteReq(Solicitation(ConfigOf(w, n), w.nodes[n])) in w.net
    && UpToDate(w.nodes[n].log, w.nodes[v].log)
  }

  lemma Votes(w0: World, w: World, n: Id, v: Id) returns (w': World)
    requires ByCalls(w0, w) && CanVote(w, n, v)
    ensures ByCalls(w0, w') && Changed(w, w', {v})
    ensures var req, s := Solicitation(ConfigOf(w, n), w.nodes[n]), w.nodes[v];
            Is(w'.nodes[v], Follower, req.term, s.commit, s.base, s.log) && VoteRep(req, v, VoteResponse(req.term, true)) in w'.net
  {
    var req := Solicitation(ConfigOf(w, n), w.nodes[n]);
    GoodIsReady(w, v);
    VotesFor(ConfigOf(w, v), w.nodes[v], req);
    w' := HandleVoteIsSteps(w, v, req);
    OneMore(w0, w, OnVote(v, req), w');
  }

  /** What a vote makes of its candidate. */
  ghost predicate Supported(cfg: Config, s: Node, v: Id, s': Node)
    requires Shaped(s)
  {
    if |s.votes + {v}| > |cfg.members| / 2 then
      && Is(s', Leader, s.term, s.commit, s.base, s.log + [Entry(|s.log|, s.term, None)])
      && forall p :: p in cfg.members && p != cfg.self ==> MatchOf(s', p) == 0 && NextOf(s', p) == |s.log|
    else s' == s.(votes := s.votes + {v})
  }

  lemma VoteSupports(cfg: Config, s: Node, v: Id, req: VoteRequest)
    requires Savable(s) && s.applied == s.commit && Available(s) && s.role == Candidate && s.term > 0 && s.term == req.term
    requires cfg.self in cfg.members && |cfg.members| >= 2
    ensures Supported(cfg, s, v, HandleVoteResponse(cfg, s, v, req, VoteResponse(req.term, true)))
  {
    hide BecomeLeader;
    LeadsAlone(cfg, s.(votes := s.votes + {v}));
  }

  /** A vote, and what the candidate makes of it. */
  lemma Supports(w0: World, w: World, n: Id, v: Id) returns (w': World)
    requires ByCalls(w0, w) && CanVote(w, n, v) && |w.members| >= 2
    ensures ByCalls(w0, w') && Changed(w, w', {n, v})
    ensures var s, t := w.nodes[v], w.nodes[n].term;
            && Is(w'.nodes[v], Follower, t, s.commit, s.base, s.log)
            && Supported(ConfigOf(w, n), w.nodes[n], v, w'.nodes[n])
  {
    hide HandleVoteResponse, Supported;
    var req := Solicitation(ConfigOf(w, n), w.nodes[n]);
    var w1 := Votes(w0, w, n, v);
    GoodIsReady(w1, n);
    CandidateHasTerm(w1, n);
    VoteSupports(ConfigOf(w, n), w.nodes[n], v, req);
    w' := HandleVoteResponseIsSteps(w1, n, v, req, VoteResponse(req.term, true));
    OneMore(w0, w1, OnVoteReply(n, v, req, VoteResponse(req.term, true)), w');
  }

  /** A proposal of a barrier. */
  lemma Proposes(w0: World, w: World, n: Id) returns (w': World)
    requires ByCalls(w0, w) && Rests(w, n) && w.nodes[n].role == Leader && NothingNew(ConfigOf(w, n), w.nodes[n])
    requires w.nodes[n].term > 0 && |w.nodes[n].log| <= 256
    ensures ByCalls(w0, w') && Changed(w, w', {n})
    ensures var s, s' := w.nodes[n], w'.nodes[n];
            && Is(s', Leader, s.term, s.commit, s.base, s.log + [Entry(|s.log|, s.term, None)])
            && s'.next == s.next && forall p :: p != n ==> MatchOf(s', p) == MatchOf(s, p)
  {
    GoodIsReady(w, n);
    ProposesBarrier(ConfigOf(w, n), w.nodes[n], |w.history|);
    w' := SubmitIsSteps(w, n, None, None);
    OneMore(w0, w, OnSubmit(n, None, None), w');
  }

  /** What a leader asks of a follower it will continue after index `k`. */
  function Asking(w: World, n: Id, k: nat): AppendRequest
    requires n in w.nodes && k < |w.nodes[n].log|
  {
    var s := w.nodes[n];
    AppendRequest(w.cluster, s.term, n, k, s.log[k].term, s.log[k + 1..], s.commit)
  }

  /** A request, and the follower's answer to it. */
  lemma Delivers(w0: World, w: World, n: Id, p: Id, k: nat) returns (w': World)
    requires ByCalls(w0, w) && Rests(w, n) && Rests(w, p) && n != p && w.nodes[n].role == Leader && Barriers(w.nodes[n].log)
    requires NextOf(w.nodes[n], p) == k + 1 < |w.nodes[n].log| && w.nodes[n].base <= k
    requires w.nodes[p].term <= w.nodes[n].term && Replaces(w.nodes[p], Asking(w, n, k))
    ensures ByCalls(w0, w') && Changed(w, w', {p})
    ensures var s, req, last := w.nodes[p], Asking(w, n, k), |w.nodes[n].log| - 1;
            && Is(w'.nodes[p], Follower, req.term, FollowedCommit(s.commit, req.leaderCommit, last), s.base, s.log[..k + 1] + req.entries)
            && AppendRep(req, p, AppendResponse(req.term, true, last, 0)) in w'.net
  {
    hide HandleAppend, Prepare, Replaces;
    var req := Asking(w, n, k);
    GoodIsReady(w, n);
    AsksFrom(ConfigOf(w, n), w.nodes[n], p, k);
    var w1 := PrepareIsStep(w, n, p);
    OneMore(w0, w, OnSend(n, p), w1);
    GoodIsReady(w1, p);
    TakesOver(ConfigOf(w1, p), w1.nodes[p], req);
    w' := HandleAppendIsSteps(w1, p, req);
    OneMore(w0, w1, OnAppend(p, req), w');
  }

  /** The leader counts an answer. */
  lemma Hears(w0: World, w: World, n: Id, p: Id, req: AppendRequest, resp: AppendResponse) returns (w': World)
    requires ByCalls(w0, w) && Rests(w, n) && AppendRep(req, p, resp) in w.net && req.leader == n && Shaped(w.nodes[n])
    ensures ByCalls(w0, w') && Changed(w, w', {n})
    ensures w'.nodes[n] == HandleAppendResponse(ConfigOf(w, n), w.nodes[n], p, req, resp)
  {
    GoodIsReady(w, n);
    w' := HandleAppendResponseIsSteps(w, n, p, req, resp);
    OneMore(w0, w, OnAppendReply(n, p, req, resp), w');
  }

  /** A leader that committed nothing restarts. */
  lemma Restarts(w0: World, w: World, n: Id) returns (w': World)
    requires ByCalls(w0, w) && Rests(w, n)
    ensures ByCalls(w0, w') && Changed(w, w', {n})
    ensures var s := w.nodes[n]; Is(w'.nodes[n], Follower, s.term, s.commit, s.base, s.log)
  {
    hide Good, Restart, MachineAt, WellFormed;
    GoodIsReady(w, n);
    w' := RestartIsSteps(w, n);
    RestartRole(ConfigOf(w, n), w.nodes[n]);
    OneMore(w0, w, OnRestart(n), w');
  }

  lemma RestartRole(cfg: Config, s: Node)
    requires Shaped(s)
    ensures var s' := Restart(cfg, s); s'.role == Follower && s'.base == s.base && !s'.paused
  {
    ApplyAllKeepsTerm(Reopened(s));
  }
}
