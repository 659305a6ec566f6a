/** The logs on which catching up fails do occur: runs of the group, made of genuine calls, that end with
    them. */
module LeftBehind {
  import opened Wrappers
  import opened RaftTypes
  import opened NodeModel
  import opened Cluster
  import opened Safety
  import opened Chains
  import opened Handlers
  import opened CatchUp
  import opened Dialogue
  import opened Calls

  const OPENED: Log := [SENTINEL, E(1, 1)]
  const SHARED: Log := [SENTINEL, E(1, 1), E(2, 1), E(3, 1)]
  const REPLACED: Log := [SENTINEL, E(1, 1), E(2, 1), E(3, 1), E(4, 2)]

  lemma LogsGrow()
    ensures [SENTINEL] + [Entry(1, 1, None)] == OPENED
    ensures OPENED + [Entry(2, 1, None)] + [Entry(3, 1, None)] == SHARED == [SENTINEL][..1] + SHARED[1..]
    ensures SHARED + [Entry(4, 1, None)] == FOLLOWER_LOG == SHARED[..4] + FOLLOWER_LOG[4..]
    ensures SHARED + [Entry(4, 2, None)] == REPLACED == FOLLOWER_LOG[..4] + REPLACED[4..]
    ensures REPLACED + [Entry(5, 3, None)] == LEADER_LOG
    ensures WellFormed(SHARED) && WellFormed(FOLLOWER_LOG) && WellFormed(REPLACED)
  {
    hide WellFormed;
    LogsAreWellFormed();
  }

  lemma LogsAreWellFormed()
    ensures WellFormed(SHARED) && WellFormed(FOLLOWER_LOG) && WellFormed(REPLACED)
  {
  }

  /** A group that can make `w`, with its checkpoints every `every` entries. */
  ghost predicate Grown(w0: World, w: World, members: set<Id>, every: nat) {
    && ByCalls(w0, w) && w.members == members && w.nodes.Keys == members && w.snapshotEvery == every
  }

  lemma Begins(members: set<Id>, cluster: string, every: nat) returns (w: World)
    requires members != {}
    ensures Init(w) && Grown(w, w, members, every)
    ensures forall n :: n in members ==> Is(w.nodes[n], Follower, 0, 0, 0, [SENTINEL])
  {
    w := World(members, cluster, every, Constant<Id, Node>(members, BLANK), {}, map[], map[], map[], map[], []);
    InitIsGood(w);
    LinkedSelf(AnyCall(), w);
  }

  /** What a member can become leader on: it rests in `term` with `log`, and `v` in an earlier term than the next
      with a log no better. */
  ghost predicate CanWin(w: World, n: Id, term: nat, commit: nat, base: nat, log: Log, v: Id) {
    && Rests(w, n) && Rests(w, v) && n != v && Is(w.nodes[n], Follower, term, commit, base, log)
    && log != [] && w.nodes[v].log != [] && w.nodes[v].term <= term && UpToDate(log, w.nodes[v].log)
  }

  ghost predicate HasWon(w: World, n: Id, term: nat, commit: nat, base: nat, log: Log) {
    && n in w.nodes && Is(w.nodes[n], Leader, term + 1, commit, base, log + [Entry(|log|, term + 1, None)])
    && forall p :: p in w.members && p != n ==> MatchOf(w.nodes[n], p) == 0 && NextOf(w.nodes[n], p) == |log|
  }

  lemma Candidacy(w0: World, w: World, n: Id, term: nat, commit: nat, base: nat, log: Log, v: Id) returns (w': World)
    requires ByCalls(w0, w) && CanWin(w, n, term, commit, base, log, v) && |w.members| >= 2
    ensures ByCalls(w0, w') && Changed(w, w', {n}) && CanVote(w', n, v)
    ensures Is(w'.nodes[n], Candidate, term + 1, commit, base, log) && w'.nodes[n].votes == {n}
    ensures VoteReq(Solicitation(ConfigOf(w', n), w'.nodes[n])) in w'.net
  {
    GoodIsReady(w, v);
    hide ByCalls;
    w' := Stands(w0, w, n);
  }

  /** One vote is enough among three. */
  lemma WinsByOne(w0: World, w: World, n: Id, v: Id, term: nat, commit: nat, base: nat, log: Log) returns (w': World)
    requires ByCalls(w0, w) && CanWin(w, n, term, commit, base, log, v) && |w.members| == 3
    ensures ByCalls(w0, w') && Changed(w, w', {n, v}) && HasWon(w', n, term, commit, base, log)
    ensures Is(w'.nodes[v], Follower, term + 1, w.nodes[v].commit, w.nodes[v].base, w.nodes[v].log)
  {
    assert n in w.nodes && v in w.nodes && n != v;
    hide ByCalls, CanWin, CanVote, Solicitation;
    var w1 := Candidacy(w0, w, n, term, commit, base, log, v);
    assert {n} + {v} == {n, v};
    w' := Supports(w0, w1, n, v);
  }

  lemma CanVoteLater(w: World, w': World, n: Id, v: Id, u: Id)
    requires Rests(w', n) && Changed(w, w', {n, v}) && u != v && n != u && Rests(w, u) && Shaped(w.nodes[u])
    requires Shaped(w'.nodes[n]) && n in w.nodes && Shaped(w.nodes[n])
    requires w'.nodes[n].role == Candidate && w.nodes[u].term < w'.nodes[n].term && UpToDate(w'.nodes[n].log, w.nodes[u].log)
    requires w'.nodes[n].term == w.nodes[n].term && w'.nodes[n].log == w.nodes[n].log
    requires VoteReq(Solicitation(ConfigOf(w, n), w.nodes[n])) in w.net
    ensures CanVote(w', n, u)
  {
  }

  lemma FirstOfTwo(w0: World, w: World, n: Id, v: Id, u: Id, term: nat, commit: nat, base: nat, log: Log) returns (w': World)
    requires ByCalls(w0, w) && CanWin(w, n, term, commit, base, log, v) && CanWin(w, n, term, commit, base, log, u)
    requires |w.members| == 5 && u != v
    ensures ByCalls(w0, w') && Changed(w, w', {n, v}) && CanVote(w', n, u)
    ensures Is(w'.nodes[n], Candidate, term + 1, commit, base, log) && w'.nodes[n].votes == {n, v}
    ensures Is(w'.nodes[v], Follower, term + 1, w.nodes[v].commit, w.nodes[v].base, w.nodes[v].log)
  {
    GoodIsReady(w, u);
    hide ByCalls, Solicitation;
    var w1 := Candidacy(w0, w, n, term, commit, base, log, v);
    assert {n} + {v} == {n, v};
    w' := Supports(w0, w1, n, v);
    CanVoteLater(w1, w', n, v, u);
  }

  /** Two votes are enough among five. */
  lemma WinsByTwo(w0: World, w: World, n: Id, v: Id, u: Id, term: nat, commit: nat, base: nat, log: Log) returns (w': World)
    requires ByCalls(w0, w) && CanWin(w, n, term, commit, base, log, v) && CanWin(w, n, term, commit, base, log, u)
    requires |w.members| == 5 && u != v
    ensures ByCalls(w0, w') && Changed(w, w', {n, v, u}) && HasWon(w', n, term, commit, base, log)
    ensures Is(w'.nodes[v], Follower, term + 1, w.nodes[v].commit, w.nodes[v].base, w.nodes[v].log)
    ensures Is(w'.nodes[u], Follower, term + 1, w.nodes[u].commit, w.nodes[u].base, w.nodes[u].log)
  {
    hide ByCalls;
    var w1 := FirstOfTwo(w0, w, n, v, u, term, commit, base, log);
    hide CanVote;
    assert {n, v} + {u} == {n, v, u};
    w' := Supports(w0, w1, n, u);
  }

  /** A new leader with nothing but its opening entry proposes twice. */
  lemma ProposesTwice(w0: World, w: World, n: Id) returns (w': World)
    requires ByCalls(w0, w) && n in w.nodes && n in w.members && Is(w.nodes[n], Leader, 1, 0, 0, OPENED) && |w.members| >= 2
    requires forall p :: p in w.members && p != n ==> MatchOf(w.nodes[n], p) == 0 && NextOf(w.nodes[n], p) == 1
    ensures ByCalls(w0, w') && Changed(w, w', {n}) && Is(w'.nodes[n], Leader, 1, 0, 0, SHARED)
    ensures forall p :: p in w.members && p != n ==> MatchOf(w'.nodes[n], p) == 0 && NextOf(w'.nodes[n], p) == 1
  {
    LogsGrow();
    var w1 := Proposes(w0, w, n);
    w' := Proposes(w0, w1, n);
  }

  function Three(cluster: string, n: Id, commit: nat): AppendRequest {
    AppendRequest(cluster, 1, n, 0, 0, SHARED[1..], commit)
  }

  /** The leader sends its three entries to a follower that has none. */
  lemma SendsThree(w0: World, w: World, n: Id, p: Id, commit: nat, term: nat) returns (w': World)
    requires ByCalls(w0, w) && n in w.nodes && n in w.members && p in w.nodes && p in w.members && n != p
    requires Is(w.nodes[n], Leader, 1, commit, 0, SHARED) && NextOf(w.nodes[n], p) == 1
    requires commit <= 3 && term <= 1 && Is(w.nodes[p], Follower, term, 0, 0, [SENTINEL])
    ensures ByCalls(w0, w') && Changed(w, w', {p}) && Is(w'.nodes[p], Follower, 1, commit, 0, SHARED)
    ensures AppendRep(Three(w.cluster, n, commit), p, AppendResponse(1, true, 3, 0)) in w'.net
  {
    LogsGrow();
    w' := Delivers(w0, w, n, p, 0);
  }

  /** The answer to the leader's three entries completes a majority `q`; member `lagging` has none of them. */
  lemma HearsAndCommits(w0: World, w: World, n: Id, p: Id, lagging: Id, q: set<Id>) returns (w': World)
    requires ByCalls(w0, w) && n in w.nodes && n in w.members && p in w.members && lagging in w.members
    requires n != p && n != lagging && p != lagging && Majority(q, w.members)
    requires Is(w.nodes[n], Leader, 1, 0, 0, SHARED) && MatchOf(w.nodes[n], lagging) == 0
    requires forall m :: m in q && m != n && m != p ==> MatchOf(w.nodes[n], m) == 3
    requires MatchOf(w.nodes[n], p) <= 3
    requires AppendRep(Three(w.cluster, n, 0), p, AppendResponse(1, true, 3, 0)) in w.net
    ensures ByCalls(w0, w') && Changed(w, w', {n}) && Is(w'.nodes[n], Leader, 1, 3, 0, SHARED)
    ensures MatchOf(w'.nodes[n], p) == 3 && NextOf(w'.nodes[n], p) == 4
    ensures forall m :: m != p ==> MatchOf(w'.nodes[n], m) == MatchOf(w.nodes[n], m) && NextOf(w'.nodes[n], m) == NextOf(w.nodes[n], m)
  {
    hide HandleAppendResponse, Replicated;
    var req, s, cfg := Three(w.cluster, n, 0), w.nodes[n], ConfigOf(w, n);
    GoodIsReady(w, n);
    HeldByMajority(cfg, Counted(s, p, 3), 3, q);
    assert MatchOf(Counted(s, p, 3), lagging) < 3;
    CountsAndCommits(cfg, s, p, req, AppendResponse(1, true, 3, 0));
    w' := Hears(w0, w, n, p, req, AppendResponse(1, true, 3, 0));
  }

  /** The answer is the last one missing. */
  lemma HearsAndCompacts(w0: World, w: World, n: Id, p: Id) returns (w': World)
    requires ByCalls(w0, w) && n in w.nodes && n in w.members && p in w.members && n != p && 0 < w.snapshotEvery <= 3
    requires Is(w.nodes[n], Leader, 1, 3, 0, SHARED) && MatchOf(w.nodes[n], p) <= 3
    requires forall m :: m in w.members && m != n && m != p ==> MatchOf(w.nodes[n], m) == 3
    requires AppendRep(Three(w.cluster, n, 3), p, AppendResponse(1, true, 3, 0)) in w.net
    ensures ByCalls(w0, w') && Changed(w, w', {n}) && Is(w'.nodes[n], Leader, 1, 3, 3, SHARED)
    ensures MatchOf(w'.nodes[n], p) == 3 && NextOf(w'.nodes[n], p) == 4
    ensures forall m :: m != p ==> MatchOf(w'.nodes[n], m) == MatchOf(w.nodes[n], m) && NextOf(w'.nodes[n], m) == NextOf(w.nodes[n], m)
  {
    var req, s, cfg := Three(w.cluster, n, 3), w.nodes[n], ConfigOf(w, n);
    GoodIsReady(w, n);
    CountsAndCompacts(cfg, s, p, req, AppendResponse(1, true, 3, 0));
    w' := Hears(w0, w, n, p, req, AppendResponse(1, true, 3, 0));
  }

  /** The answer to the leader's three entries is neither enough to commit nor, once they are committed, the
      last one missing. */
  lemma HearsOnly(w0: World, w: World, n: Id, p: Id, lagging: Id, commit: nat) returns (w': World)
    requires ByCalls(w0, w) && n in w.nodes && n in w.members && p in w.members && lagging in w.members && |w.members| == 5
    requires n != p && n != lagging && p != lagging && MatchOf(w.nodes[n], lagging) == 0 && 0 < w.snapshotEvery
    requires commit == 3 || (commit == 0 && forall m :: m in w.members && m != n ==> MatchOf(w.nodes[n], m) == 0)
    requires Is(w.nodes[n], Leader, 1, commit, 0, SHARED) && MatchOf(w.nodes[n], p) == 0
    requires AppendRep(Three(w.cluster, n, commit), p, AppendResponse(1, true, 3, 0)) in w.net
    ensures ByCalls(w0, w') && Changed(w, w', {n}) && Is(w'.nodes[n], Leader, 1, commit, 0, SHARED)
    ensures MatchOf(w'.nodes[n], p) == 3 && NextOf(w'.nodes[n], p) == 4
    ensures forall m :: m != p ==> MatchOf(w'.nodes[n], m) == MatchOf(w.nodes[n], m) && NextOf(w'.nodes[n], m) == NextOf(w.nodes[n], m)
  {
    hide HandleAppendResponse, Replicated;
    var req, s, cfg := Three(w.cluster, n, commit), w.nodes[n], ConfigOf(w, n);
    GoodIsReady(w, n);
    if commit == 0 {
      TwoAreTooFew(cfg, Counted(s, p, 3), p);
    }
    assert MatchOf(Counted(s, p, 3), lagging) == 0;
    CountsOnly(cfg, s, p, req, AppendResponse(1, true, 3, 0));
    w' := Hears(w0, w, n, p, req, AppendResponse(1, true, 3, 0));
  }

  lemma TwoAreTooFew(cfg: Config, s: Node, p: Id)
    requires |cfg.members| == 5 && forall m :: m in cfg.members && m != cfg.self && m != p ==> MatchOf(s, m) == 0
    ensures forall k :: k > 0 ==> !Replicated(cfg, s, k)
  {
    forall k: nat | k > 0 ensures !Replicated(cfg, s, k) {
      SubsetSize(set m | m in cfg.members && (m == cfg.self || MatchOf(s, m) >= k), {cfg.self, p});
    }
  }

  // ---- Three entries fed to one follower ----

  /** A follower that has nothing, and a leader that begins with it. */
  ghost predicate Starving(w: World, n: Id, p: Id, commit: nat, term: nat) {
    && Rests(w, n) && Rests(w, p) && n != p && Is(w.nodes[n], Leader, 1, commit, 0, SHARED) && commit <= 3
    && NextOf(w.nodes[n], p) == 1 && MatchOf(w.nodes[n], p) == 0
    && term <= 1 && Is(w.nodes[p], Follower, term, 0, 0, [SENTINEL])
  }

  /** The follower has the leader's log, and the leader knows. */
  ghost predicate Fed(w: World, n: Id, p: Id, commit: nat, w': World) {
    && n in w'.nodes && p in w'.nodes && n in w.nodes
    && Changed(w, w', {n, p}) && Is(w'.nodes[p], Follower, 1, commit, 0, SHARED)
    && MatchOf(w'.nodes[n], p) == 3 && NextOf(w'.nodes[n], p) == 4
    && forall m :: m != p ==> MatchOf(w'.nodes[n], m) == MatchOf(w.nodes[n], m) && NextOf(w'.nodes[n], m) == NextOf(w.nodes[n], m)
  }

  lemma FeedsAndCommits(w0: World, w: World, n: Id, p: Id, term: nat, lagging: Id, q: set<Id>) returns (w': World)
    requires ByCalls(w0, w) && Starving(w, n, p, 0, term) && lagging in w.members
    requires n != lagging && p != lagging && Majority(q, w.members) && MatchOf(w.nodes[n], lagging) == 0
    requires forall m :: m in q && m != n && m != p ==> MatchOf(w.nodes[n], m) == 3
    ensures ByCalls(w0, w') && Fed(w, n, p, 0, w') && Is(w'.nodes[n], Leader, 1, 3, 0, SHARED)
  {
    hide ByCalls, Three, Majority;
    var w1 := SendsThree(w0, w, n, p, 0, term);
    w' := HearsAndCommits(w0, w1, n, p, lagging, q);
  }

  lemma FeedsAndCompacts(w0: World, w: World, n: Id, p: Id, term: nat) returns (w': World)
    requires ByCalls(w0, w) && Starving(w, n, p, 3, term) && 0 < w.snapshotEvery <= 3
    requires forall m :: m in w.members && m != n && m != p ==> MatchOf(w.nodes[n], m) == 3
    ensures ByCalls(w0, w') && Fed(w, n, p, 3, w') && Is(w'.nodes[n], Leader, 1, 3, 3, SHARED)
  {
    hide ByCalls, Three;
    var w1 := SendsThree(w0, w, n, p, 3, term);
    w' := HearsAndCompacts(w0, w1, n, p);
  }

  lemma FeedsOnly(w0: World, w: World, n: Id, p: Id, term: nat, lagging: Id, commit: nat) returns (w': World)
    requires ByCalls(w0, w) && Starving(w, n, p, commit, term) && lagging in w.members && |w.members| == 5
    requires n != lagging && p != lagging && MatchOf(w.nodes[n], lagging) == 0 && 0 < w.snapshotEvery
    requires commit == 3 || (commit == 0 && forall m :: m in w.members && m != n ==> MatchOf(w.nodes[n], m) == 0)
    ensures ByCalls(w0, w') && Fed(w, n, p, commit, w') && Is(w'.nodes[n], Leader, 1, commit, 0, SHARED)
  {
    hide ByCalls, Three;
    var w1 := SendsThree(w0, w, n, p, commit, term);
    w' := HearsOnly(w0, w1, n, p, lagging, commit);
  }

  // ---- Three members: the follower compacted further ----

  lemma ThreeElect(a: Id, b: Id, c: Id, cluster: string, every: nat) returns (w0: World, w: World)
    requires a != b && b != c && a != c
    ensures Init(w0) && Grown(w0, w, {a, b, c}, every)
    ensures Is(w.nodes[a], Follower, 1, 0, 0, [SENTINEL]) && Is(w.nodes[c], Follower, 0, 0, 0, [SENTINEL])
    ensures Is(w.nodes[b], Leader, 1, 0, 0, SHARED)
    ensures forall p :: p in {a, c} ==> MatchOf(w.nodes[b], p) == 0 && NextOf(w.nodes[b], p) == 1
  {
    hide ByCalls;
    w0 := Begins({a, b, c}, cluster, every);
    var w1 := WinsByOne(w0, w0, b, a, 0, 0, 0, [SENTINEL]);
    LogsGrow();
    w := ProposesTwice(w0, w1, b);
  }

  lemma ThreeCompact(a: Id, b: Id, c: Id, cluster: string, every: nat) returns (w0: World, w: World)
    requires a != b && b != c && a != c && 0 < every <= 3
    ensures Init(w0) && Grown(w0, w, {a, b, c}, every)
    ensures Is(w.nodes[a], Follower, 1, 0, 0, SHARED) && Is(w.nodes[c], Follower, 1, 3, 0, SHARED)
    ensures Is(w.nodes[b], Leader, 1, 3, 3, SHARED)
    ensures forall p :: p in {a, c} ==> MatchOf(w.nodes[b], p) == 3
  {
    hide ByCalls;
    var w1;
    w0, w1 := ThreeElect(a, b, c, cluster, every);
    var w2 := FeedsAndCommits(w0, w1, b, a, 1, c, {a, b});
    w := FeedsAndCompacts(w0, w2, b, c, 0);
  }

  lemma ThreeReplace(a: Id, b: Id, c: Id, cluster: string, every: nat) returns (w0: World, w: World)
    requires a != b && b != c && a != c && 0 < every <= 3
    ensures Init(w0) && Grown(w0, w, {a, b, c}, every)
    ensures Is(w.nodes[a], Leader, 2, 0, 0, REPLACED) && Is(w.nodes[b], Leader, 1, 3, 3, FOLLOWER_LOG)
    ensures Is(w.nodes[c], Follower, 2, 3, 0, SHARED)
  {
    hide ByCalls, WellFormed;
    LogsGrow();
    var w1;
    w0, w1 := ThreeCompact(a, b, c, cluster, every);
    var w2 := Proposes(w0, w1, b);
    w := WinsByOne(w0, w2, a, c, 1, 0, 0, SHARED);
  }

  /** The follower is an earlier leader that compacted; the leader has its own entry 4, and a fifth. */
  lemma ThreeDiverge(a: Id, b: Id, c: Id, cluster: string, every: nat) returns (w0: World, w: World)
    requires a != b && b != c && a != c && 0 < every <= 3
    ensures Init(w0) && Grown(w0, w, {a, b, c}, every)
    ensures Is(w.nodes[a], Leader, 3, 0, 0, LEADER_LOG) && Is(w.nodes[b], Leader, 1, 3, 3, FOLLOWER_LOG)
    ensures MatchOf(w.nodes[a], b) == 0 && NextOf(w.nodes[a], b) == 5
  {
    hide ByCalls, WellFormed;
    LogsGrow();
    var w1;
    w0, w1 := ThreeReplace(a, b, c, cluster, every);
    var w2 := Restarts(w0, w1, a);
    w := WinsByOne(w0, w2, a, c, 2, 0, 0, REPLACED);
  }

  /** For any three members, a run of genuine calls ends with a leader and a follower that no dialogue ever
      brings up to date: the follower asks for an entry below its own base, forever. */
  lemma FollowerIsLeftBehind(a: Id, b: Id, c: Id, cluster: string, every: nat) returns (run: seq<World>)
    requires a != b && b != c && a != c && 0 < every <= 3
    ensures IsRun(run) && ByCalls(run[0], run[|run| - 1])
    ensures var w := run[|run| - 1];
            && w.members == {a, b, c} && w.snapshotEvery == every && AboutToTalk(w, a, b)
            && w.nodes[a].log == LEADER_LOG && w.nodes[a].base == 0 && w.nodes[b].log == FOLLOWER_LOG && w.nodes[b].base == 3
            && forall talk :: !CatchesUp(w, a, b, talk)
  {
    var w0, w := ThreeDiverge(a, b, c, cluster, every);
    run := CallsAreRun(w0, w);
    CompactedFollowerNeverFound(0);
    CatchUpExactly(run, a, b);
  }

  // ---- Five members: the leader compacted further ----

  predicate Different(l: Id, f: Id, g: Id, h: Id, i: Id) {
    l != f && l != g && l != h && l != i && f != g && f != h && f != i && g != h && g != i && h != i
  }

  lemma FiveLead(l: Id, f: Id, g: Id, h: Id, i: Id, cluster: string, every: nat) returns (w0: World, w: World)
    requires Different(l, f, g, h, i)
    ensures Init(w0) && Grown(w0, w, {l, f, g, h, i}, every)
    ensures Is(w.nodes[l], Leader, 1, 0, 0, OPENED)
    ensures forall p :: p in {f, g} ==> Is(w.nodes[p], Follower, 1, 0, 0, [SENTINEL])
    ensures forall p :: p in {h, i} ==> Is(w.nodes[p], Follower, 0, 0, 0, [SENTINEL])
    ensures forall p :: p in {f, g, h, i} ==> MatchOf(w.nodes[l], p) == 0 && NextOf(w.nodes[l], p) == 1
  {
    hide ByCalls, WellFormed;
    w0 := Begins({l, f, g, h, i}, cluster, every);
    LogsGrow();
    w := WinsByTwo(w0, w0, l, f, g, 0, 0, 0, [SENTINEL]);
  }

  lemma FiveElect(l: Id, f: Id, g: Id, h: Id, i: Id, cluster: string, every: nat) returns (w0: World, w: World)
    requires Different(l, f, g, h, i)
    ensures Init(w0) && Grown(w0, w, {l, f, g, h, i}, every)
    ensures Is(w.nodes[l], Leader, 1, 0, 0, SHARED)
    ensures forall p :: p in {f, g} ==> Is(w.nodes[p], Follower, 1, 0, 0, [SENTINEL])
    ensures forall p :: p in {h, i} ==> Is(w.nodes[p], Follower, 0, 0, 0, [SENTINEL])
    ensures forall p :: p in {f, g, h, i} ==> MatchOf(w.nodes[l], p) == 0 && NextOf(w.nodes[l], p) == 1
  {
    hide ByCalls, WellFormed;
    var w1;
    w0, w1 := FiveLead(l, f, g, h, i, cluster, every);
    w := ProposesTwice(w0, w1, l);
  }

  lemma FiveBegin(l: Id, f: Id, g: Id, h: Id, i: Id, cluster: string, every: nat) returns (w0: World, w: World)
    requires Different(l, f, g, h, i) && 0 < every <= 3
    ensures Init(w0) && Grown(w0, w, {l, f, g, h, i}, every)
    ensures Is(w.nodes[l], Leader, 1, 0, 0, SHARED) && MatchOf(w.nodes[l], f) == 3 && NextOf(w.nodes[l], f) == 4
    ensures Is(w.nodes[f], Follower, 1, 0, 0, SHARED) && Is(w.nodes[g], Follower, 1, 0, 0, [SENTINEL])
    ensures forall p :: p in {h, i} ==> Is(w.nodes[p], Follower, 0, 0, 0, [SENTINEL])
    ensures forall p :: p in {g, h, i} ==> MatchOf(w.nodes[l], p) == 0 && NextOf(w.nodes[l], p) == 1
  {
    hide ByCalls;
    var w1;
    w0, w1 := FiveElect(l, f, g, h, i, cluster, every);
    w := FeedsOnly(w0, w1, l, f, 1, i, 0);
  }

  lemma FiveCommit(l: Id, f: Id, g: Id, h: Id, i: Id, cluster: string, every: nat) returns (w0: World, w: World)
    requires Different(l, f, g, h, i) && 0 < every <= 3
    ensures Init(w0) && Grown(w0, w, {l, f, g, h, i}, every)
    ensures Is(w.nodes[l], Leader, 1, 3, 0, SHARED)
    ensures forall p :: p in {f, g} ==> Is(w.nodes[p], Follower, 1, 0, 0, SHARED) && MatchOf(w.nodes[l], p) == 3 && NextOf(w.nodes[l], p) == 4
    ensures forall p :: p in {h, i} ==> Is(w.nodes[p], Follower, 0, 0, 0, [SENTINEL]) && MatchOf(w.nodes[l], p) == 0 && NextOf(w.nodes[l], p) == 1
  {
    hide ByCalls;
    var w1;
    w0, w1 := FiveBegin(l, f, g, h, i, cluster, every);
    w := FeedsAndCommits(w0, w1, l, g, 1, i, {l, f, g});
  }

  lemma FiveCompact(l: Id, f: Id, g: Id, h: Id, i: Id, cluster: string, every: nat) returns (w0: World, w: World)
    requires Different(l, f, g, h, i) && 0 < every <= 3
    ensures Init(w0) && Grown(w0, w, {l, f, g, h, i}, every)
    ensures Is(w.nodes[l], Leader, 1, 3, 3, SHARED)
    ensures forall p :: p in {f, g} ==> Is(w.nodes[p], Follower, 1, 0, 0, SHARED)
    ensures forall p :: p in {h, i} ==> Is(w.nodes[p], Follower, 1, 3, 0, SHARED)
    ensures forall p :: p in {f, g, h, i} ==> MatchOf(w.nodes[l], p) == 3 && NextOf(w.nodes[l], p) == 4
  {
    hide ByCalls;
    var w1;
    w0, w1 := FiveCommit(l, f, g, h, i, cluster, every);
    var w2 := FeedsOnly(w0, w1, l, h, 0, i, 3);
    w := FeedsAndCompacts(w0, w2, l, i, 0);
  }

  lemma ProposesFourth(w0: World, w: World, n: Id) returns (w': World)
    requires ByCalls(w0, w) && n in w.nodes && n in w.members && Is(w.nodes[n], Leader, 1, 3, 3, SHARED) && |w.members| >= 2
    requires forall p :: p in w.members && p != n ==> MatchOf(w.nodes[n], p) == 3
    ensures ByCalls(w0, w') && Changed(w, w', {n}) && Is(w'.nodes[n], Leader, 1, 3, 3, FOLLOWER_LOG)
    ensures w'.nodes[n].next == w.nodes[n].next
  {
    LogsGrow();
    w' := Proposes(w0, w, n);
  }

  lemma FivePropose(l: Id, f: Id, g: Id, h: Id, i: Id, cluster: string, every: nat) returns (w0: World, w: World)
    requires Different(l, f, g, h, i) && 0 < every <= 3
    ensures Init(w0) && Grown(w0, w, {l, f, g, h, i}, every)
    ensures Is(w.nodes[l], Leader, 1, 3, 3, FOLLOWER_LOG) && NextOf(w.nodes[l], f) == 4
    ensures forall p :: p in {f, g} ==> Is(w.nodes[p], Follower, 1, 0, 0, SHARED)
    ensures forall p :: p in {h, i} ==> Is(w.nodes[p], Follower, 1, 3, 0, SHARED)
  {
    hide ByCalls, WellFormed;
    var w1;
    w0, w1 := FiveCompact(l, f, g, h, i, cluster, every);
    w := ProposesFourth(w0, w1, l);
  }

  /** Entry 4 of the compacted leader reaches `f` alone. */
  lemma FiveExtend(l: Id, f: Id, g: Id, h: Id, i: Id, cluster: string, every: nat) returns (w0: World, w: World)
    requires Different(l, f, g, h, i) && 0 < every <= 3
    ensures Init(w0) && Grown(w0, w, {l, f, g, h, i}, every)
    ensures Is(w.nodes[f], Follower, 1, 3, 0, FOLLOWER_LOG) && Is(w.nodes[l], Leader, 1, 3, 3, FOLLOWER_LOG)
    ensures Is(w.nodes[g], Follower, 1, 0, 0, SHARED)
    ensures forall p :: p in {h, i} ==> Is(w.nodes[p], Follower, 1, 3, 0, SHARED)
  {
    hide ByCalls, WellFormed;
    LogsGrow();
    var w1;
    w0, w1 := FivePropose(l, f, g, h, i, cluster, every);
    w := Delivers(w0, w1, l, f, 3);
  }

  /** And `g` replaces it at the leader by its own. */
  lemma FiveReplace(l: Id, f: Id, g: Id, h: Id, i: Id, cluster: string, every: nat) returns (w0: World, w: World)
    requires Different(l, f, g, h, i) && 0 < every <= 3
    ensures Init(w0) && Grown(w0, w, {l, f, g, h, i}, every)
    ensures Is(w.nodes[f], Follower, 1, 3, 0, FOLLOWER_LOG) && Is(w.nodes[l], Follower, 2, 3, 3, REPLACED)
    ensures forall p :: p in {h, i} ==> Is(w.nodes[p], Follower, 2, 3, 0, SHARED)
  {
    hide ByCalls, WellFormed;
    LogsGrow();
    var w1;
    w0, w1 := FiveExtend(l, f, g, h, i, cluster, every);
    var w2 := WinsByTwo(w0, w1, g, h, i, 1, 0, 0, SHARED);
    w := Delivers(w0, w2, g, l, 3);
  }

  lemma FiveDiverge(l: Id, f: Id, g: Id, h: Id, i: Id, cluster: string, every: nat) returns (w0: World, w: World)
    requires Different(l, f, g, h, i) && 0 < every <= 3
    ensures Init(w0) && Grown(w0, w, {l, f, g, h, i}, every)
    ensures Is(w.nodes[l], Leader, 3, 3, 3, LEADER_LOG) && Is(w.nodes[f], Follower, 1, 3, 0, FOLLOWER_LOG)
    ensures MatchOf(w.nodes[l], f) == 0 && NextOf(w.nodes[l], f) == 5
  {
    hide ByCalls, WellFormed;
    LogsGrow();
    var w1;
    w0, w1 := FiveReplace(l, f, g, h, i, cluster, every);
    w := WinsByTwo(w0, w1, l, h, i, 2, 3, 3, REPLACED);
  }

  /** For any five members, a run of genuine calls ends with a leader that compacted and a follower that did not,
      and the answer to the leader's next request makes it read below its base. */
  lemma LeaderReadsBelowBase(l: Id, f: Id, g: Id, h: Id, i: Id, cluster: string, every: nat)
    returns (run: seq<World>, next: World)
    requires Different(l, f, g, h, i) && 0 < every <= 3
    ensures IsRun(run) && ByCalls(run[0], run[|run| - 1])
    ensures var w := run[|run| - 1];
            && w.members == {l, f, g, h, i} && w.snapshotEvery == every && AboutToTalk(w, l, f)
            && w.nodes[l].log == LEADER_LOG && w.nodes[l].base == 3 && w.nodes[f].log == FOLLOWER_LOG && w.nodes[f].base == 0
            && (forall talk :: !CatchesUp(w, l, f, talk))
            && Exchanged(w, l, f, next) && l in next.nodes && Shaped(next.nodes[l]) && next.nodes[l].role == Leader
            && Prepare(ConfigOf(next, l), next.nodes[l], f).None?
  {
    var w0, w := FiveDiverge(l, f, g, h, i, cluster, every);
    run := CallsAreRun(w0, w);
    CompactedLeaderOutOfRange();
    CatchUpExactly(run, l, f);
    TalkerIsPaired(run, l, f);
    next := RejectedExchange(w, l, f);
  }
}
