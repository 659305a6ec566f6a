/** The whole group as a state machine.  One step is one uninterrupted piece of a handler, holding at
    most one write to the journal, so a crash (a Reopen step) can fall between any two writes.
    Messages are never removed from the network: loss, delay, duplication and reordering are all
    covered.  A failed write that reached the disk is that step followed by Reopen; one that did not
    reach it is Reopen alone. */
module Cluster {
  import opened Wrappers
  import opened RaftTypes
  import opened NodeModel

  datatype Message =
    | VoteReq(vreq: VoteRequest)
    | VoteRep(vreq: VoteRequest, from: Id, vresp: VoteResponse)
    | AppendReq(areq: AppendRequest)
    | AppendRep(areq: AppendRequest, from: Id, aresp: AppendResponse)

  /** History kept for the proofs only: what a term's leader has appended, and who elected it. */
  datatype Reign = Reign(leader: Id, voters: set<Id>, log: Log)
  /** History: whom a node voted for in a term, and the log it held when it did. */
  datatype Ballot = Ballot(candidate: Id, log: Log)

  /** History of the clients: an operation is named by the position of its Invoke. */
  datatype Event =
    | Invoke(node: Id, term: nat, entry: Entry, readKey: Option<SM.Text>)
    | Reply(op: nat, outcome: SM.Outcome)

  datatype World = World(
    members: set<Id>, cluster: string, snapshotEvery: nat,
    nodes: map<Id, Node>, net: set<Message>,
    reigns: map<nat, Reign>, ballots: map<(Id, nat), Ballot>, campaigns: map<(Id, nat), Log>,
    acks: map<(Id, nat), nat>, history: seq<Event>)

  function ConfigOf(w: World, n: Id): Config {
    Config(n, w.members, w.cluster, n, w.snapshotEvery)
  }

  const BLANK := Node(0, None, 0, 0, [SENTINEL], SM.EMPTY_STATE, Follower, None, 0, SM.EMPTY_STATE, {},
                      map[], map[], map[], map[], false, false)

  ghost predicate Init(w: World) {
    && w.members != {}
    && w == World(w.members, w.cluster, w.snapshotEvery, Constant<Id, Node>(w.members, BLANK), {},
                  map[], map[], map[], map[], [])
  }

  /** The greatest index of the term's log that the node has durably stored while in that term. */
  function Ack(w: World, n: Id, t: nat): nat {
    if (n, t) in w.acks then w.acks[(n, t)] else 0
  }

  function TermOf(w: World, n: Id): nat {
    if n in w.nodes then w.nodes[n].term else 0
  }

  datatype Step =
    | Bump(n: Id, term: nat, leader: Option<Id>)
    | Local(n: Id, after: Node)
    | Campaign(n: Id)
    | Grant(n: Id, vreq: VoteRequest)
    | CountVote(n: Id, from: Id, vreq: VoteRequest, vresp: VoteResponse)
    | Elect(n: Id)
    | Propose(n: Id, command: Option<SM.Command>, readKey: Option<SM.Text>)
    | Send(n: Id, prev: nat, count: nat)
    | Accept(n: Id, areq: AppendRequest)
    | Refuse(n: Id, reply: Message)
    | CountMatch(n: Id, from: Id, areq: AppendRequest, aresp: AppendResponse)
    | Commit(n: Id, index: nat)
    | ApplyOne(n: Id)
    | Compact(n: Id)
    | Reopen(n: Id)

  // ---- The steps, one function each ----

  ghost function Bumped(s: Node, term: nat, leader: Option<Id>): Node {
    FailPending(s.(term := term, vote := None, role := Follower, leader := leader), NotLeader(leader))
  }

  /** Volatile changes that need no justification: stepping down without a new term, giving up or
      cancelling waiters, pausing, resuming, and moving `next`. */
  ghost predicate Harmless(s: Node, s': Node) {
    && s' == s.(role := s'.role, leader := s'.leader, next := s'.next, pending := s'.pending,
                answers := s'.answers, paused := s'.paused)
    && (s'.role == s.role || s'.role == Follower)
    && (forall i :: i in s'.pending ==> i in s.pending && s'.pending[i] == s.pending[i])
    && (s'.role != Leader ==> s'.pending == map[])
    && (forall t :: t in s'.answers && s'.answers[t].Answered? ==> t in s.answers && s.answers[t] == s'.answers[t])
  }

  function Put(w: World, n: Id, s: Node): World {
    w.(nodes := w.nodes[n := s])
  }

  function DoCampaign(w: World, n: Id): World
    requires n in w.nodes && Shaped(w.nodes[n])
  {
    var s := w.nodes[n];
    var t := s.term + 1;
    var s' := s.(term := t, vote := Some(n), role := Candidate, leader := None, votes := {n});
    Put(w, n, s').(
      net := w.net + {VoteReq(Solicitation(ConfigOf(w, n), s'))},
      ballots := w.ballots[(n, t) := Ballot(n, s.log)],
      campaigns := w.campaigns[(n, t) := s.log])
  }

  function DoGrant(w: World, n: Id, req: VoteRequest): World
    requires n in w.nodes
  {
    var s := w.nodes[n];
    Put(w, n, s.(vote := Some(req.candidate))).(
      net := w.net + {VoteRep(req, n, VoteResponse(s.term, true))},
      ballots := if s.vote == None then w.ballots[(n, s.term) := Ballot(req.candidate, s.log)] else w.ballots)
  }

  ghost function DoElect(w: World, n: Id): World
    requires n in w.nodes && Shaped(w.nodes[n])
  {
    var s := w.nodes[n];
    var s' := Elected(ConfigOf(w, n), s);
    Put(w, n, s').(
      reigns := w.reigns[s.term := Reign(n, s.votes, s'.log)],
      acks := w.acks[(n, s.term) := |s.log|])
  }

  function DoPropose(w: World, n: Id, command: Option<SM.Command>, readKey: Option<SM.Text>): World
    requires n in w.nodes && Shaped(w.nodes[n]) && w.nodes[n].term in w.reigns
  {
    var s := w.nodes[n];
    var e := Entry(|s.log|, s.term, command);
    var s' := Registered(ConfigOf(w, n), s.(log := s.log + [e]), Waiter(|w.history|, readKey));
    Put(w, n, s').(
      reigns := w.reigns[s.term := w.reigns[s.term].(log := s.log + [e])],
      acks := w.acks[(n, s.term) := |s.log|],
      history := w.history + [Invoke(n, s.term, e, readKey)])
  }

  function Window(w: World, n: Id, prev: nat, count: nat): AppendRequest
    requires n in w.nodes && prev + count < |w.nodes[n].log|
  {
    var s := w.nodes[n];
    AppendRequest(w.cluster, s.term, n, prev, s.log[prev].term, s.log[prev + 1..prev + count + 1], s.commit)
  }

  /** The request passes the follower's checks. */
  ghost predicate Acceptable(s: Node, req: AppendRequest) {
    && Shaped(s) && s.base <= req.prevLogIndex < |s.log|
    && s.log[req.prevLogIndex].term == req.prevLogTerm
    && var scan := ScanEntries(s, req, 0);
       !scan.Bad? && (scan.Differ? ==> req.prevLogIndex + 1 + scan.at > s.commit)
  }

  /** The follower's log after a scan: cut where it differs, and continued as the request says. */
  function MergedBy(log: Log, req: AppendRequest, scan: Scan): Log {
    if scan.Differ? && scan.at <= |req.entries| && req.prevLogIndex + 1 + scan.at <= |log| then
      log[..req.prevLogIndex + 1 + scan.at] + req.entries[scan.at..]
    else log
  }

  function MergedLog(s: Node, req: AppendRequest): Log
    requires Shaped(s)
  {
    MergedBy(s.log, req, ScanEntries(s, req, 0))
  }

  function AcceptedNode(s: Node, req: AppendRequest): Node
    requires Shaped(s)
  {
    s.(log := MergedLog(s, req),
       commit := FollowedCommit(s.commit, req.leaderCommit, req.prevLogIndex + |req.entries|))
  }

  function DoAccept(w: World, n: Id, req: AppendRequest): World
    requires n in w.nodes && Shaped(w.nodes[n])
  {
    var s := w.nodes[n];
    var matched := req.prevLogIndex + |req.entries|;
    Put(w, n, AcceptedNode(s, req)).(
      net := w.net + {AppendRep(req, n, AppendResponse(s.term, true, matched, 0))},
      acks := if Ack(w, n, s.term) < matched then w.acks[(n, s.term) := matched] else w.acks)
  }

  ghost predicate Negative(m: Message) {
    || (m.VoteRep? && !m.vresp.granted)
    || (m.AppendRep? && !m.aresp.success)
  }

  function DoApply(w: World, n: Id): World
    requires n in w.nodes && Shaped(w.nodes[n]) && w.nodes[n].applied < w.nodes[n].commit
  {
    var s := w.nodes[n];
    var i := s.applied + 1;
    Put(w, n, ApplyNext(s)).(
      history :=
        if i in s.pending then
          var (after, out) := ApplyEntry(s.machine, s.log[i]);
          w.history + [Reply(s.pending[i].ticket, Hear(after, out, s.pending[i].readKey))]
        else w.history)
  }

  ghost predicate Enabled(w: World, step: Step) {
    && step.n in w.nodes && step.n in w.members && Shaped(w.nodes[step.n])
    && var s := w.nodes[step.n];
       var n := step.n;
       match step
       case Bump(_, term, _) => term > s.term
       case Local(_, after) => Harmless(s, after)
       case Campaign(_) => s.role != Leader
       case Grant(_, req) =>
         VoteReq(req) in w.net && req.candidate != n && req.term == s.term && Grants(s, req)
       case CountVote(_, from, req, resp) =>
         VoteRep(req, from, resp) in w.net && req.candidate == n && resp.granted && s.role == Candidate
         && req.term == s.term && resp.term == s.term
       case Elect(_) => s.role == Candidate && |s.votes| > |w.members| / 2
       case Propose(_, command, _) =>
         s.role == Leader && s.term in w.reigns && (command.Some? ==> SM.ValidCommand(command.value))
       case Send(_, prev, count) => s.role == Leader && s.base <= prev && prev + count < |s.log|
       case Accept(_, req) =>
         AppendReq(req) in w.net && req.leader != n && req.term == s.term && s.role == Follower && Acceptable(s, req)
       case Refuse(_, reply) => Negative(reply)
       case CountMatch(_, from, req, resp) =>
         AppendRep(req, from, resp) in w.net && req.leader == n && resp.success && s.role == Leader
         && req.term == s.term && resp.term == s.term
       case Commit(_, index) =>
         s.role == Leader && s.commit < index < |s.log| && s.log[index].term == s.term
         && Replicated(ConfigOf(w, n), s, index)
       case ApplyOne(_) => s.applied < s.commit
       case Compact(_) =>
         s.role == Leader && s.applied == s.commit
         && (forall p :: p in w.members && p != n ==> MatchOf(s, p) >= s.commit)
       case Reopen(_) => true
  }

  ghost function Do(w: World, step: Step): World
    requires Enabled(w, step)
  {
    var n := step.n;
    var s := w.nodes[n];
    match step
    case Bump(_, term, leader) => Put(w, n, Bumped(s, term, leader))
    case Local(_, after) => Put(w, n, after)
    case Campaign(_) => DoCampaign(w, n)
    case Grant(_, req) => DoGrant(w, n, req)
    case CountVote(_, from, _, _) => Put(w, n, s.(votes := s.votes + {from}))
    case Elect(_) => DoElect(w, n)
    case Propose(_, command, readKey) => DoPropose(w, n, command, readKey)
    case Send(_, prev, count) => w.(net := w.net + {AppendReq(Window(w, n, prev, count))})
    case Accept(_, req) => DoAccept(w, n, req)
    case Refuse(_, reply) => w.(net := w.net + {reply})
    case CountMatch(_, from, req, _) => Put(w, n, Counted(s, from, req.prevLogIndex + |req.entries|))
    case Commit(_, index) => Put(w, n, s.(commit := index))
    case ApplyOne(_) => DoApply(w, n)
    case Compact(_) => Put(w, n, s.(base := s.commit, snapshot := s.machine))
    case Reopen(_) => Put(w, n, Reopened(s))
  }

  ghost predicate Next(w: World, w': World) {
    exists step :: Enabled(w, step) && w' == Do(w, step)
  }

  ghost predicate StepAt(run: seq<World>, k: nat)
    requires 0 < k < |run|
  {
    Next(run[k - 1], run[k])
  }

  /** A finite run of the group from its initial state. */
  ghost predicate IsRun(run: seq<World>) {
    && |run| > 0 && Init(run[0])
    && forall k {:trigger StepAt(run, k)} :: 0 < k < |run| ==> StepAt(run, k)
  }
}
