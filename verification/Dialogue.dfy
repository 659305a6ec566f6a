/** Catching up, in every reachable state of the group: a leader and one follower exchange requests and
    answers, none of them lost and nothing else happening at the two. */
module Dialogue {
  import opened RaftTypes
  import opened NodeModel
  import opened Cluster
  import opened Invariant
  import opened QuietSteps
  import opened Replication
  import opened Safety
  import opened Handlers
  import opened Simulation
  import opened CatchUp
  import opened Holding
  import opened Effects
  import opened Chains

  /** replicateOnce and the follower's handler: one request, its answer, and what the leader makes of it. */
  ghost function Exchange(cl: Config, cf: Config, l: Node, f: Node): (Node, Node)
    requires Shaped(l) && Shaped(f) && l.applied == l.commit && Prepare(cl, l, cf.self).Some?
  {
    var req := Prepare(cl, l, cf.self).value;
    var (f', resp, error) := HandleAppend(cf, f, req);
    (if error == NoError then HandleAppendResponse(cl, l, cf.self, req, resp) else l, f')
  }

  /** A leader and a running member that is not in a later term, between two handlers. */
  ghost predicate Paired(w: World, n: Id, p: Id) {
    && Good(w) && AllHold(w) && n in w.nodes && p in w.nodes && n != p
    && w.nodes[n].role == Leader && !w.nodes[n].paused && !w.nodes[p].paused
    && w.nodes[p].term <= w.nodes[n].term
    && w.nodes[n].applied == w.nodes[n].commit && w.nodes[p].applied == w.nodes[p].commit
  }

  lemma PairFacts(w: World, n: Id, p: Id)
    requires Paired(w, n, p)
    ensures Ready(w, n) && Ready(w, p)
    ensures Compatible(w.nodes[n].log, w.nodes[n].base, w.nodes[p].log, w.nodes[p].base)
  {
    GoodIsReady(w, n);
    GoodIsReady(w, p);
    MembersCompatible(w, n, p);
  }

  lemma MembersCompatible(w: World, n: Id, p: Id)
    requires Inv(w) && n in w.nodes && p in w.nodes
    ensures Compatible(w.nodes[n].log, w.nodes[n].base, w.nodes[p].log, w.nodes[p].base)
  {
    var l, f := w.nodes[n].log, w.nodes[p].log;
    assert LogPart(w, w.nodes[n]) && Stable(w, l, w.nodes[n].base) by {
      LogParts(w, n);
    }
    assert LogPart(w, w.nodes[p]) && Stable(w, f, w.nodes[p].base) by {
      LogParts(w, p);
    }
    forall i | 0 <= i < |l| && i < |f| && l[i].term == f[i].term ensures Agree(l, f, i + 1) {
      LogsMatch(w, l, f, i);
    }
    StableIsEverywhere(w, l, w.nodes[n].base, p);
    StableIsEverywhere(w, f, w.nodes[p].base, n);
  }

  /** Where the dialogue stands. */
  function TurnOf(l: Node, f: Node, p: Id): Turn
    requires Shaped(l) && Shaped(f)
  {
    TakeTurn(l.log, l.base, f.log, f.base, NextIndex(l, p))
  }

  ghost predicate Exchanged(w: World, n: Id, p: Id, w': World) {
    && Paired(w, n, p) && Shaped(w.nodes[n]) && Shaped(w.nodes[p]) && Prepare(ConfigOf(w, n), w.nodes[n], p).Some?
    && Reaches(w, w') && w'.members == w.members && w'.cluster == w.cluster && w'.snapshotEvery == w.snapshotEvery
    && var (l', f') := Exchange(ConfigOf(w, n), ConfigOf(w, p), w.nodes[n], w.nodes[p]);
       w'.nodes == w.nodes[n := l'][p := f']
  }

  lemma NextHolds(w: World, w': World)
    requires Good(w) && AllHold(w) && Next(w, w')
    ensures Good(w') && AllHold(w')
  {
    NextIsGood(w, w');
    NextKeepsAllHold(w, w');
  }

  lemma ReachedHolds(w: World, w': World)
    requires Good(w) && AllHold(w) && Reaches(w, w')
    ensures Good(w') && AllHold(w')
  {
    var chain :| Joins(chain, AnyStep(), w, w');
    forall v, v' | Good(v) && AllHold(v) && AnyStep()(v, v') ensures Good(v') && AllHold(v') {
      NextHolds(v, v');
    }
    Invariantly(chain, AnyStep(), v => Good(v) && AllHold(v), |chain| - 1);
  }

  /** The follower follows on, and accepts a request whose previous entry it holds. */
  predicate Answers(f: Node, req: AppendRequest, f': Node, resp: AppendResponse) {
    && FollowsOn(f, f', req)
    && (Meets(f, req) ==> resp == AppendResponse(req.term, true, req.prevLogIndex + |req.entries|, 0))
  }

  /** The follower's half of an exchange. */
  lemma AnswerIsSteps(w: World, n: Id, p: Id, req: AppendRequest) returns (w': World)
    requires Ready(w, p) && n in w.members && p != n && AppendReq(req) in w.net
    requires req.leader == n && req.cluster == w.cluster && !w.nodes[p].paused
    ensures var (f', resp, error) := HandleAppend(ConfigOf(w, p), w.nodes[p], req);
            && Makes(w, w', p, f') && !f'.failed && error == NoError && AppendRep(req, p, resp) in w'.net
            && (w.nodes[p].applied == w.nodes[p].commit ==> f'.applied == f'.commit)
            && (req.term >= w.nodes[p].term ==> Answers(w.nodes[p], req, f', resp))
  {
    w' := HandleAppendIsSteps(w, p, req);
    KnownLeader(ConfigOf(w, p), w.nodes[p], req);
  }

  lemma KnownLeader(cfg: Config, s: Node, req: AppendRequest)
    requires Shaped(s) && Member(cfg, req.leader, req.cluster)
    ensures HandleAppend(cfg, s, req).2 != UnknownPeer
  {
  }

  lemma AskIsSteps(w: World, n: Id, p: Id) returns (w': World)
    requires Ready(w, n) && Ready(w, p) && w.nodes[n].role == Leader && Prepare(ConfigOf(w, n), w.nodes[n], p).Some?
    ensures Reaches(w, w') && w'.nodes == w.nodes && Ready(w', n) && Ready(w', p)
    ensures w'.members == w.members && w'.cluster == w.cluster && w'.snapshotEvery == w.snapshotEvery
    ensures AppendReq(Prepare(ConfigOf(w, n), w.nodes[n], p).value) in w'.net
  {
    w' := PrepareIsStep(w, n, p);
    ReachedIsReady(w, w', n);
    ReachedIsReady(w, w', p);
  }

  lemma AnswerAndCount(w: World, n: Id, p: Id, req: AppendRequest) returns (w': World)
    requires Ready(w, n) && Ready(w, p) && p != n && AppendReq(req) in w.net
    requires req.leader == n && req.cluster == w.cluster && !w.nodes[p].paused && w.nodes[n].applied == w.nodes[n].commit
    ensures var (f', resp, error) := HandleAppend(ConfigOf(w, p), w.nodes[p], req);
            var l' := HandleAppendResponse(ConfigOf(w, n), w.nodes[n], p, req, resp);
            && Reaches(w, w') && w'.members == w.members && w'.cluster == w.cluster && w'.snapshotEvery == w.snapshotEvery
            && w'.nodes == w.nodes[n := l'][p := f'] && error == NoError && !l'.failed && !f'.failed
            && l'.applied == l'.commit && (w.nodes[p].applied == w.nodes[p].commit ==> f'.applied == f'.commit)
            && (req.term >= w.nodes[p].term ==> Answers(w.nodes[p], req, f', resp))
  {
    var w1 := AnswerIsSteps(w, n, p, req);
    assert Ready(w1, n) by {
      ReachedIsReady(w, w1, n);
    }
    var resp := HandleAppend(ConfigOf(w, p), w.nodes[p], req).1;
    w' := HandleAppendResponseIsSteps(w1, n, p, req, resp);
    BothMade(w, w1, w', n, p, w'.nodes[n], w1.nodes[p]);
  }

  lemma BothMade(w: World, w1: World, w': World, n: Id, p: Id, l': Node, f': Node)
    requires Makes(w, w1, p, f') && Makes(w1, w', n, l') && n != p && n in w.nodes
    ensures Reaches(w, w') && w'.members == w.members && w'.cluster == w.cluster && w'.snapshotEvery == w.snapshotEvery
    ensures w'.nodes == w.nodes[n := l'][p := f']
  {
    ReachTransitive(w, w1, w');
  }

  /** An exchange is a chain of the group's steps. */
  lemma ExchangeIsSteps(w: World, n: Id, p: Id) returns (w': World)
    requires Paired(w, n, p) && Shaped(w.nodes[n]) && Shaped(w.nodes[p]) && Prepare(ConfigOf(w, n), w.nodes[n], p).Some?
    ensures Exchanged(w, n, p, w') && Good(w') && AllHold(w')
    ensures var cl, cf, l, f := ConfigOf(w, n), ConfigOf(w, p), w.nodes[n], w.nodes[p];
            var req := Prepare(cl, l, p).value;
            var (f', resp, error) := HandleAppend(cf, f, req);
            var l' := HandleAppendResponse(cl, l, p, req, resp);
            && Exchange(cl, cf, l, f) == (l', f') && Answers(f, req, f', resp)
            && !l'.failed && !f'.failed && l'.applied == l'.commit && f'.applied == f'.commit
  {
    PairFacts(w, n, p);
    var w1 := AskIsSteps(w, n, p);
    w' := AnswerAndCount(w1, n, p, Prepare(ConfigOf(w, n), w.nodes[n], p).value);
    ReachTransitive(w, w1, w');
    ReachedHolds(w, w');
  }

  // ---- One exchange ----

  /** Nothing the dialogue depends on has changed but `next`. */
  ghost predicate SameLogs(w: World, n: Id, p: Id, w': World) {
    && n in w.nodes && p in w.nodes && n in w'.nodes && p in w'.nodes
    && w'.nodes[n].log == w.nodes[n].log && w'.nodes[n].base == w.nodes[n].base && w'.nodes[n].term == w.nodes[n].term
    && w'.nodes[n].matched == w.nodes[n].matched
    && w'.nodes[p].log == w.nodes[p].log && w'.nodes[p].base == w.nodes[p].base
  }

  lemma TurnIsRequest(cl: Config, cf: Config, l: Node, f: Node, p: Id)
    requires Shaped(l) && Shaped(f) && Savable(l) && p == cf.self
    ensures var turn := TurnOf(l, f, p);
            && (turn.OutOfRange? <==> Prepare(cl, l, p).None?)
            && (!turn.OutOfRange? ==>
                  var req := Prepare(cl, l, p).value;
                  && req.term == l.term && req.leader == cl.self && req.cluster == cl.cluster
                  && req.prevLogIndex == Max(NextIndex(l, p) - 1, l.base) && req.prevLogTerm == l.log[req.prevLogIndex].term
                  && (turn.Accepted? ==> Meets(f, req) && turn.prev == req.prevLogIndex)
                  && (turn.Retry? ==>
                        && !Meets(f, req)
                        && turn.next == Lowered(req.prevLogIndex, NextIndex(l, p), Conflict(f.log, f.base, req.prevLogIndex))))
  {
  }

  lemma RejectedNodes(cl: Config, cf: Config, l: Node, f: Node, p: Id)
    requires Savable(l) && Savable(f) && TurnOf(l, f, p).Retry? && p == cf.self && l.applied == l.commit
    requires l.role == Leader && Available(l) && Available(f) && f.term <= l.term && Member(cf, cl.self, cl.cluster)
    ensures Prepare(cl, l, p).Some?
    ensures var req := Prepare(cl, l, p).value;
            var (f', resp, _) := HandleAppend(cf, f, req);
            var l' := HandleAppendResponse(cl, l, p, req, resp);
            && l' == l.(next := l'.next) && NextIndex(l', p) == TurnOf(l, f, p).next
            && f'.term == l.term && f'.log == f.log && f'.base == f.base && !f'.paused
  {
    TurnIsRequest(cl, cf, l, f, p);
    var req := Prepare(cl, l, p).value;
    FollowerRejects(cf, f, req);
    LeaderBacksOff(cl, l, p, req, HandleAppend(cf, f, req).1);
  }

  /** A rejected exchange lowers `next` as the turn says, and changes nothing else the dialogue depends on. */
  lemma RejectedExchange(w: World, n: Id, p: Id) returns (w': World)
    requires Paired(w, n, p) && Shaped(w.nodes[n]) && Shaped(w.nodes[p]) && TurnOf(w.nodes[n], w.nodes[p], p).Retry?
    ensures Exchanged(w, n, p, w') && Paired(w', n, p) && SameLogs(w, n, p, w')
    ensures NextIndex(w'.nodes[n], p) == TurnOf(w.nodes[n], w.nodes[p], p).next
  {
    PairFacts(w, n, p);
    RejectedNodes(ConfigOf(w, n), ConfigOf(w, p), w.nodes[n], w.nodes[p], p);
    w' := ExchangeIsSteps(w, n, p);
  }

  /** Every exchange from the same state ends in the same nodes. */
  lemma RejectedAlways(w: World, n: Id, p: Id, w': World)
    requires Exchanged(w, n, p, w') && TurnOf(w.nodes[n], w.nodes[p], p).Retry?
    ensures Paired(w', n, p) && SameLogs(w, n, p, w') && Shaped(w'.nodes[n])
    ensures NextIndex(w'.nodes[n], p) == TurnOf(w.nodes[n], w.nodes[p], p).next
  {
    var w1 := RejectedExchange(w, n, p);
    assert w1.nodes == w'.nodes;
    ReachedHolds(w, w');
  }

  /** What an accepted request leaves: the leader counts at least through the last entry sent, asks from
      there on, and neither base is above it. */
  ghost predicate Counts(l: Node, f: Node, p: Id, prev: nat, l': Node, f': Node)
    requires Shaped(l)
  {
    && l'.log == l.log && l'.term == l.term && l'.role == Leader && !l'.paused
    && f'.term == l.term && f'.base == f.base && !f'.paused
    && prev <= MatchOf(l', p) && NextOf(l', p) == MatchOf(l', p) + 1 && l'.base <= MatchOf(l', p)
    && (NextIndex(l, p) > l.base && prev < Last(l) ==> prev < MatchOf(l', p))
  }

  lemma AcceptedNodes(cl: Config, cf: Config, l: Node, f: Node, p: Id)
    requires Savable(l) && Savable(f) && TurnOf(l, f, p).Accepted? && p == cf.self && l.applied == l.commit
    requires l.role == Leader && Available(l) && !f.paused && p in cl.members && p != cl.self
    requires Prepare(cl, l, p).Some?
    requires var req := Prepare(cl, l, p).value;
             var (f', resp, _) := HandleAppend(cf, f, req);
             Answers(f, req, f', resp) && !HandleAppendResponse(cl, l, p, req, resp).failed
    ensures var req := Prepare(cl, l, p).value;
            var (f', resp, _) := HandleAppend(cf, f, req);
            Counts(l, f, p, TurnOf(l, f, p).prev, HandleAppendResponse(cl, l, p, req, resp), f')
  {
    TurnIsRequest(cl, cf, l, f, p);
    BacklogYieldsBatch(cl, l, p);
    var req := Prepare(cl, l, p).value;
    LeaderCounts(cl, l, p, req, HandleAppend(cf, f, req).1);
  }

  lemma AcceptedExchange(w: World, n: Id, p: Id) returns (w': World)
    requires Paired(w, n, p) && Shaped(w.nodes[n]) && Shaped(w.nodes[p]) && TurnOf(w.nodes[n], w.nodes[p], p).Accepted?
    ensures Exchanged(w, n, p, w') && Paired(w', n, p)
    ensures Counts(w.nodes[n], w.nodes[p], p, TurnOf(w.nodes[n], w.nodes[p], p).prev, w'.nodes[n], w'.nodes[p])
  {
    PairFacts(w, n, p);
    TurnIsRequest(ConfigOf(w, n), ConfigOf(w, p), w.nodes[n], w.nodes[p], p);
    w' := ExchangeIsSteps(w, n, p);
    AcceptedNodes(ConfigOf(w, n), ConfigOf(w, p), w.nodes[n], w.nodes[p], p);
  }

  /** Having counted an answer, the leader is accepted again where it left off, and counts no more than it
      has. */
  lemma NextIsAccepted(w: World, n: Id, p: Id)
    requires Paired(w, n, p) && Shaped(w.nodes[n]) && Shaped(w.nodes[p])
    requires var l, f := w.nodes[n], w.nodes[p];
             NextOf(l, p) == MatchOf(l, p) + 1 && l.base <= MatchOf(l, p) && f.base <= MatchOf(l, p)
    ensures var l, f, m := w.nodes[n], w.nodes[p], MatchOf(w.nodes[n], p);
            && m <= Last(l) && Agree(f.log, l.log, m + 1) && NextIndex(l, p) == m + 1 && TurnOf(l, f, p) == Accepted(m)
  {
    GoodIsReady(w, p);
    HeldMatch(w, n, p);
  }

  // ---- Whole dialogues ----

  ghost function OneExchange(n: Id, p: Id): (World, World) -> bool {
    (w, w') => Exchanged(w, n, p, w')
  }

  /** A dialogue: a sequence of states, each reached from the one before by one exchange. */
  ghost predicate IsTalk(talk: seq<World>, n: Id, p: Id) {
    IsChain(talk, OneExchange(n, p))
  }

  /** The leader has counted its whole log for the follower, which holds it all. */
  ghost predicate CaughtUp(w: World, n: Id, p: Id) {
    && n in w.nodes && p in w.nodes && Shaped(w.nodes[n])
    && MatchOf(w.nodes[n], p) == Last(w.nodes[n]) && Agree(w.nodes[p].log, w.nodes[n].log, |w.nodes[n].log|)
  }

  /** How much is left to send, in half steps: a message clamped to the base may carry nothing. */
  function Backlog(l: Node, p: Id, prev: nat): int {
    2 * (|l.log| - prev) + (if p in l.next && l.next[p] > l.base then 0 else 1)
  }

  /** The next request will be accepted. */
  ghost predicate Agreed(w: World, n: Id, p: Id) {
    Paired(w, n, p) && Shaped(w.nodes[n]) && Shaped(w.nodes[p]) && TurnOf(w.nodes[n], w.nodes[p], p).Accepted?
  }

  /** Every exchange of the dialogue succeeds. */
  ghost predicate AllAccepted(talk: seq<World>, n: Id, p: Id) {
    forall k {:trigger talk[k]} :: 0 <= k < |talk| - 1 ==> Agreed(talk[k], n, p)
  }

  /** From the first accepted request on, every exchange succeeds and the backlog falls to nothing. */
  lemma SendsRest(w: World, n: Id, p: Id) returns (talk: seq<World>)
    requires Agreed(w, n, p)
    ensures IsTalk(talk, n, p) && talk[0] == w && CaughtUp(talk[|talk| - 1], n, p) && AllAccepted(talk, n, p)
  {
    hide Exchanged, CaughtUp;
    var w1 := SendTurn(w, n, p);
    var rest := KeepsSending(w1, n, p, BacklogOf(w, n, p));
    talk := Prepend(w, rest, OneExchange(n, p));
  }

  ghost function SendingNear(n: Id, p: Id): (World, nat) -> bool {
    (v: World, j: nat) => Sending(v, n, p, j)
  }

  ghost function IsCaughtUp(n: Id, p: Id): World -> bool {
    v => CaughtUp(v, n, p)
  }

  lemma KeepsSending(w: World, n: Id, p: Id, k: nat) returns (talk: seq<World>)
    requires Sending(w, n, p, k)
    ensures IsTalk(talk, n, p) && talk[0] == w && CaughtUp(talk[|talk| - 1], n, p) && AllAccepted(talk, n, p)
  {
    hide Exchanged;
    forall v, j: nat | Sending(v, n, p, j) && !CaughtUp(v, n, p)
      ensures j > 0 && exists v' :: OneExchange(n, p)(v, v') && Sending(v', n, p, j - 1)
    {
      var v' := SendTurn(v, n, p);
      assert OneExchange(n, p)(v, v') && Sending(v', n, p, j - 1);
    }
    talk := Pursue(w, k, OneExchange(n, p), SendingNear(n, p), IsCaughtUp(n, p));
    forall i | 0 <= i < |talk| - 1 ensures Agreed(talk[i], n, p) {
      assert BeforeGoal(talk, SendingNear(n, p), IsCaughtUp(n, p), i);
    }
  }

  function BacklogOf(w: World, n: Id, p: Id): nat
    requires n in w.nodes && p in w.nodes && Shaped(w.nodes[n]) && Shaped(w.nodes[p])
    requires TurnOf(w.nodes[n], w.nodes[p], p).Accepted?
  {
    Backlog(w.nodes[n], p, TurnOf(w.nodes[n], w.nodes[p], p).prev)
  }

  /** The leader is being accepted, and has at most `k` half steps to go, or is done. */
  ghost predicate Sending(w: World, n: Id, p: Id, k: nat) {
    CaughtUp(w, n, p) || (Agreed(w, n, p) && BacklogOf(w, n, p) <= k)
  }

  lemma SendTurn(w: World, n: Id, p: Id) returns (w': World)
    requires Agreed(w, n, p)
    ensures Exchanged(w, n, p, w')
    ensures CaughtUp(w', n, p) || (Agreed(w', n, p) && BacklogOf(w', n, p) < BacklogOf(w, n, p))
  {
    w' := AcceptedExchange(w, n, p);
    PairFits(w', n, p);
    NextIsAccepted(w', n, p);
  }

  /** The search for agreement between two nodes, `turns` turns on. */
  function SearchAfter(l: Node, f: Node, p: Id, turns: nat): Turn
    requires Shaped(l) && Shaped(f)
  {
    AfterTurns(l.log, l.base, f.log, f.base, NextIndex(l, p), turns)
  }

  /** The search will succeed `turns` turns from here. */
  ghost predicate Searching(w: World, n: Id, p: Id, turns: nat) {
    Paired(w, n, p) && Shaped(w.nodes[n]) && Shaped(w.nodes[p]) && SearchAfter(w.nodes[n], w.nodes[p], p, turns).Accepted?
  }

  lemma SearchTurn(w: World, n: Id, p: Id, turns: nat) returns (w': World)
    requires Searching(w, n, p, turns) && !Agreed(w, n, p)
    ensures turns > 0 && Exchanged(w, n, p, w') && Searching(w', n, p, turns - 1)
  {
    SearchGoesOn(w.nodes[n], w.nodes[p], p, turns);
    w' := RejectedExchange(w, n, p);
    PairFits(w', n, p);
    SearchFollows(w.nodes[n], w.nodes[p], w'.nodes[n], w'.nodes[p], p, turns);
  }

  lemma FindsAgreement(w: World, n: Id, p: Id, turns: nat) returns (talk: seq<World>)
    requires Searching(w, n, p, turns)
    ensures IsTalk(talk, n, p) && talk[0] == w && Agreed(talk[|talk| - 1], n, p)
  {
    hide Searching, Agreed, Exchanged;
    forall v, k: nat | Searching(v, n, p, k) && !Agreed(v, n, p)
      ensures k > 0 && exists v' :: OneExchange(n, p)(v, v') && Searching(v', n, p, k - 1)
    {
      var v' := SearchTurn(v, n, p, k);
      assert OneExchange(n, p)(v, v') && Searching(v', n, p, k - 1);
    }
    talk := Pursue(w, turns, OneExchange(n, p), (v, k) => Searching(v, n, p, k), v => Agreed(v, n, p));
  }

  lemma SearchGoesOn(l: Node, f: Node, p: Id, turns: nat)
    requires Shaped(l) && Shaped(f) && SearchAfter(l, f, p, turns).Accepted? && !TurnOf(l, f, p).Accepted?
    ensures turns > 0 && TurnOf(l, f, p).Retry?
  {
    FirstTurnDecides(l.log, l.base, f.log, f.base, NextIndex(l, p), turns);
  }

  lemma SearchFollows(l: Node, f: Node, l': Node, f': Node, p: Id, turns: nat)
    requires Shaped(l) && Shaped(f) && Shaped(l') && Shaped(f') && turns > 0
    requires SearchAfter(l, f, p, turns).Accepted? && TurnOf(l, f, p).Retry?
    requires l'.log == l.log && l'.base == l.base && f'.log == f.log && f'.base == f.base
    requires NextIndex(l', p) == TurnOf(l, f, p).next
    ensures SearchAfter(l', f', p, turns - 1).Accepted?
  {
    FirstTurnDecides(l.log, l.base, f.log, f.base, NextIndex(l, p), turns);
  }

  lemma FirstTurnDecides(l: Log, b: nat, f: Log, d: nat, next: nat, turns: nat)
    requires 1 <= next <= |l| && b < |l| && d < |f| && AfterTurns(l, b, f, d, next, turns).Accepted?
    requires !TakeTurn(l, b, f, d, next).Accepted?
    ensures turns > 0 && TakeTurn(l, b, f, d, next).Retry?
    ensures AfterTurns(l, b, f, d, TakeTurn(l, b, f, d, next).next, turns - 1).Accepted?
  {
    assert AfterTurns(l, b, f, d, next, 0) == Retry(next);
    if TakeTurn(l, b, f, d, next).Retry? {
      TurnsShift(l, b, f, d, next, turns - 1);
    } else {
      OutOfRangeStays(l, b, f, d, next, turns);
    }
  }

  lemma {:induction false} OutOfRangeStays(l: Log, b: nat, f: Log, d: nat, next: nat, turns: nat)
    requires 1 <= next <= |l| && b < |l| && d < |f| && TakeTurn(l, b, f, d, next).OutOfRange?
    ensures turns > 0 ==> AfterTurns(l, b, f, d, next, turns).OutOfRange?
  {
    if turns == 1 {
      assert AfterTurns(l, b, f, d, next, 0) == Retry(next);
    } else if turns > 1 {
      OutOfRangeStays(l, b, f, d, next, turns - 1);
    }
  }

  /** What the logs of two members of a reachable group satisfy. */
  ghost predicate LogsFit(l: Node, f: Node) {
    && Shaped(l) && Shaped(f) && Compatible(l.log, l.base, f.log, f.base)
    && Max(l.base, f.base) <= Frontier(l.log, f.log)
  }

  ghost predicate IsDoomed(l: Node, f: Node, p: Id)
    requires LogsFit(l, f)
  {
    Doomed(l.log, l.base, f.log, f.base, NextIndex(l, p))
  }

  lemma PairFits(w: World, n: Id, p: Id)
    requires Paired(w, n, p)
    ensures LogsFit(w.nodes[n], w.nodes[p])
  {
    PairFacts(w, n, p);
    var l, f := w.nodes[n], w.nodes[p];
    FrontierIsExact(l.log, l.base, f.log, f.base, Max(l.base, f.base));
  }

  lemma DoomedTurn(cl: Config, cf: Config, l: Node, f: Node, p: Id)
    requires LogsFit(l, f) && IsDoomed(l, f, p) && Savable(l) && p == cf.self && Prepare(cl, l, p).Some?
    ensures TurnOf(l, f, p).Retry? && Doomed(l.log, l.base, f.log, f.base, TurnOf(l, f, p).next)
  {
    TurnIsRequest(cl, cf, l, f, p);
    DoomedStays(l.log, l.base, f.log, f.base, NextIndex(l, p));
  }

  ghost predicate InDoom(w: World, n: Id, p: Id) {
    Paired(w, n, p) && LogsFit(w.nodes[n], w.nodes[p]) && IsDoomed(w.nodes[n], w.nodes[p], p)
  }

  lemma DoomedExchange(w: World, n: Id, p: Id, w': World)
    requires Exchanged(w, n, p, w') && InDoom(w, n, p)
    ensures SameLogs(w, n, p, w') && InDoom(w', n, p)
  {
    assert Savable(w.nodes[n]) by {
      PairFacts(w, n, p);
    }
    DoomedTurn(ConfigOf(w, n), ConfigOf(w, p), w.nodes[n], w.nodes[p], p);
    RejectedAlways(w, n, p, w');
    PairFits(w', n, p);
  }

  lemma SameLogsTransitive(a: World, b: World, c: World, n: Id, p: Id)
    requires SameLogs(a, n, p, b) && SameLogs(b, n, p, c)
    ensures SameLogs(a, n, p, c)
  {
  }

  lemma DoomedTalk(talk: seq<World>, n: Id, p: Id, k: nat)
    requires IsTalk(talk, n, p) && k < |talk| && InDoom(talk[0], n, p)
    ensures SameLogs(talk[0], n, p, talk[k]) && InDoom(talk[k], n, p)
  {
    var w := talk[0];
    forall v, v' | StillDoomed(w, n, p, v) && OneExchange(n, p)(v, v') ensures StillDoomed(w, n, p, v') {
      DoomedExchange(v, n, p, v');
      SameLogsTransitive(w, v, v', n, p);
    }
    Invariantly(talk, OneExchange(n, p), v => StillDoomed(w, n, p, v), k);
  }

  ghost predicate StillDoomed(w: World, n: Id, p: Id, v: World) {
    SameLogs(w, n, p, v) && InDoom(v, n, p)
  }

  lemma SearchCatchesUp(w: World, n: Id, p: Id) returns (talk: seq<World>)
    requires Paired(w, n, p) && LogsFit(w.nodes[n], w.nodes[p]) && !IsDoomed(w.nodes[n], w.nodes[p], p)
    ensures IsTalk(talk, n, p) && talk[0] == w && CaughtUp(talk[|talk| - 1], n, p)
  {
    var turns := SearchSucceeds(w.nodes[n], w.nodes[p], p);
    var search := FindsAgreement(w, n, p, turns);
    var rest := SendsRest(search[|search| - 1], n, p);
    talk := Join(search, rest, OneExchange(n, p));
  }

  lemma SearchSucceeds(l: Node, f: Node, p: Id) returns (turns: nat)
    requires LogsFit(l, f) && !IsDoomed(l, f, p)
    ensures SearchAfter(l, f, p, turns).Accepted?
  {
    AgreementIsFound(l.log, l.base, f.log, f.base, NextIndex(l, p));
    turns :| AfterTurns(l.log, l.base, f.log, f.base, NextIndex(l, p), turns).Accepted?;
  }

  /** A dialogue from `w` that ends with the follower caught up. */
  ghost predicate CatchesUp(w: World, n: Id, p: Id, talk: seq<World>) {
    IsTalk(talk, n, p) && talk[0] == w && CaughtUp(talk[|talk| - 1], n, p)
  }

  /** From a doomed position the follower is never caught up, unless it already was, however long the
      dialogue goes on. */
  lemma NeverCatchesUp(w: World, n: Id, p: Id, talk: seq<World>)
    requires Paired(w, n, p) && LogsFit(w.nodes[n], w.nodes[p]) && IsDoomed(w.nodes[n], w.nodes[p], p)
    requires !CaughtUp(w, n, p)
    ensures !CatchesUp(w, n, p, talk)
  {
    hide Exchanged, Paired, IsDoomed;
    if CatchesUp(w, n, p, talk) {
      DoomedTalk(talk, n, p, |talk| - 1);
    }
  }

  /** A leader in a reachable group about to talk to a running member, between handlers. */
  ghost predicate AboutToTalk(w: World, n: Id, p: Id) {
    && n in w.nodes && p in w.nodes && n != p && w.nodes[n].role == Leader && !w.nodes[n].paused && !w.nodes[p].paused
    && w.nodes[p].term <= w.nodes[n].term
    && w.nodes[n].applied == w.nodes[n].commit && w.nodes[p].applied == w.nodes[p].commit
  }

  lemma TalkerIsPaired(run: seq<World>, n: Id, p: Id)
    requires IsRun(run) && AboutToTalk(run[|run| - 1], n, p)
    ensures var w := run[|run| - 1]; Paired(w, n, p) && LogsFit(w.nodes[n], w.nodes[p])
  {
    RunIsGood(run, |run| - 1);
    RunHolds(run, |run| - 1);
    PairFits(run[|run| - 1], n, p);
  }

  /** In every reachable state: a leader that talks to a running follower, without loss, brings it up to its
      own log if and only if it has done so already or the position it starts from is not doomed; with
      nothing compacted, always. */
  lemma CatchUpExactly(run: seq<World>, n: Id, p: Id)
    requires IsRun(run) && AboutToTalk(run[|run| - 1], n, p)
    ensures var w := run[|run| - 1];
            var l, f := w.nodes[n], w.nodes[p];
            && LogsFit(l, f)
            && ((exists talk :: CatchesUp(w, n, p, talk)) <==> CaughtUp(w, n, p) || !IsDoomed(l, f, p))
            && (l.base == 0 && f.base == 0 ==> !IsDoomed(l, f, p))
  {
    var w := run[|run| - 1];
    TalkerIsPaired(run, n, p);
    if CaughtUp(w, n, p) {
      Single(w, OneExchange(n, p));
      assert CatchesUp(w, n, p, [w]);
    } else if IsDoomed(w.nodes[n], w.nodes[p], p) {
      forall talk ensures !CatchesUp(w, n, p, talk) {
        NeverCatchesUp(w, n, p, talk);
      }
    } else {
      var talk := SearchCatchesUp(w, n, p);
      assert CatchesUp(w, n, p, talk);
    }
    if w.nodes[n].base == 0 && w.nodes[p].base == 0 {
      UncompactedIsNeverDoomed(w.nodes[n].log, w.nodes[p].log, NextIndex(w.nodes[n], p));
    }
  }
}
