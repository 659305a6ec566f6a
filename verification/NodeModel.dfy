/** One Raft node as a value, and what each handler of internal/raft does to it.
    The log here is the uncompacted one: a node's store holds its part from `base` on, and the
    handlers look at no entry below `base`. */
module NodeModel {
  import opened Wrappers
  import opened RaftTypes
  import St = Store
  import SM = StateMachine

  datatype Role = Follower | Candidate | Leader

  /** The fixed configuration of one node. */
  datatype Config = Config(self: Id, members: set<Id>, cluster: string, identity: string, snapshotEvery: nat)

  /** What a client waiting on a ticket is told. */
  datatype Answer = Answered(outcome: SM.Outcome) | NotLeader(leader: Option<Id>) | Unavailable

  datatype Waiter = Waiter(ticket: nat, readKey: Option<SM.Text>)

  datatype Node = Node(
    // hard state, kept by the store
    term: nat, vote: Option<Id>, commit: nat, base: nat, log: Log, snapshot: SM.State,
    // volatile state, lost on restart
    role: Role, leader: Option<Id>, applied: nat, machine: SM.State, votes: set<Id>,
    next: map<Id, nat>, matched: map<Id, nat>, pending: map<nat, Waiter>, answers: map<nat, Answer>,
    paused: bool, failed: bool)

  /** The indexes a handler relies on. */
  predicate Shaped(s: Node) {
    s.base <= s.applied <= s.commit < |s.log|
  }

  function Last(s: Node): nat
    requires Shaped(s)
  {
    |s.log| - 1
  }

  /** The hard state as the store sees it. */
  function Disk(s: Node): St.DurableState
    requires Shaped(s)
  {
    St.DurableState(s.term, s.vote, s.commit, s.base, s.log[s.base..])
  }

  predicate Available(s: Node) { !s.paused && !s.failed }

  function MatchOf(s: Node, p: Id): nat {
    if p in s.matched then s.matched[p] else 0
  }

  // ---- Pieces shared by the handlers ----

  function Tickets(pending: map<nat, Waiter>): set<nat> {
    set w | w in pending.Values :: w.ticket
  }

  ghost function FailPending(s: Node, a: Answer): Node {
    s.(pending := map[], answers := s.answers + Constant<nat, Answer>(Tickets(s.pending), a))
  }

  /** persistLocked after a failed save. */
  ghost function Crashed(s: Node): Node {
    FailPending(s.(failed := true, role := Follower, leader := None), Unavailable)
  }

  /** persistLocked on a healthy disk: the record is saved unless the store objects to it. */
  ghost function Persist(cfg: Config, s: Node, term: nat, vote: Option<Id>, commit: nat, from: nat, entries: seq<Entry>): Node
    requires Shaped(s)
    ensures Shaped(Persist(cfg, s, term, vote, commit, from, entries))
  {
    var r := St.Record(cfg.identity, term, vote, commit, from, entries, None);
    if St.Objection(Disk(s), cfg.identity, r).Some? then Crashed(s)
    else
      var log := if from != 0 then s.log[..from] + entries else s.log;
      s.(term := term, vote := vote, commit := commit, log := log)
  }

  /** A save of hard state alone changes nothing else. */
  lemma HardStateOnly(cfg: Config, s: Node, term: nat, vote: Option<Id>, commit: nat)
    requires Shaped(s)
    ensures var s1 := Persist(cfg, s, term, vote, commit, 0, []);
            s1 == Crashed(s) || s1 == s.(term := term, vote := vote, commit := commit)
  {
    hide Crashed, St.Objection;
  }

  /** stepDownLocked */
  ghost function StepDown(cfg: Config, s: Node, term: nat, leader: Option<Id>): Node
    requires Shaped(s) && !s.failed
    ensures Shaped(StepDown(cfg, s, term, leader))
  {
    var s1 := if term > s.term then Persist(cfg, s, term, None, s.commit, 0, []) else s;
    if s1.failed then s1
    else FailPending(s1.(role := Follower, leader := leader), NotLeader(leader))
  }

  /** One turn of the loop in applyLocked. */
  function ApplyNext(s: Node): Node
    requires Shaped(s) && s.applied < s.commit
    ensures Shaped(ApplyNext(s))
  {
    var i := s.applied + 1;
    var (after, out) := ApplyEntry(s.machine, s.log[i]);
    var s1 := s.(applied := i, machine := after);
    if i in s.pending then
      var w := s.pending[i];
      s1.(pending := s.pending - {i}, answers := s.answers[w.ticket := Answered(Hear(after, out, w.readKey))])
    else s1
  }

  function ApplyAll(s: Node): Node
    requires Shaped(s)
    ensures Shaped(ApplyAll(s))
    decreases s.commit - s.applied
  {
    if s.applied < s.commit then ApplyAll(ApplyNext(s)) else s
  }

  /** maybeSnapshotLocked */
  ghost function MaybeSnapshot(cfg: Config, s: Node): Node
    requires Shaped(s) && (s.role == Leader ==> s.applied == s.commit)
    ensures Shaped(MaybeSnapshot(cfg, s))
  {
    if cfg.snapshotEvery == 0 || s.commit - s.base < cfg.snapshotEvery || s.role != Leader then s
    else if exists p :: p in cfg.members && p != cfg.self && MatchOf(s, p) < s.commit then s
    else
      var r := CheckpointRecord(cfg, s);
      if St.Objection(Disk(s), cfg.identity, r).Some? then Crashed(s)
      else s.(base := s.commit, snapshot := s.machine)
  }

  function CheckpointRecord(cfg: Config, s: Node): St.Record
    requires Shaped(s)
  {
    St.Record(cfg.identity, 0, None, 0, 0, [],
      Some(St.Checkpoint(s.commit, s.log[s.commit].term, s.machine, s.term, s.vote, s.commit, s.log[s.commit..])))
  }

  /** applyLocked */
  ghost function ApplyLocked(cfg: Config, s: Node): Node
    requires Shaped(s)
    ensures Shaped(ApplyLocked(cfg, s))
  {
    AppliedToCommit(s);
    MaybeSnapshot(cfg, ApplyAll(s))
  }

  lemma {:induction false} AppliedToCommit(s: Node)
    requires Shaped(s)
    ensures ApplyAll(s).applied == ApplyAll(s).commit == s.commit
    ensures ApplyAll(s).role == s.role
    decreases s.commit - s.applied
  {
    if s.applied < s.commit {
      AppliedToCommit(ApplyNext(s));
    }
  }

  /** Applying changes nothing but what was applied and who was told. */
  lemma {:induction false} ApplyAllKeepsTerm(s: Node)
    requires Shaped(s)
    ensures var s' := ApplyAll(s);
            s' == s.(applied := s'.applied, machine := s'.machine, pending := s'.pending, answers := s'.answers)
    decreases s.commit - s.applied
  {
    if s.applied < s.commit {
      ApplyAllKeepsTerm(ApplyNext(s));
    }
  }

  /** Whether a majority, the leader included, is known to hold index `i`. */
  predicate Replicated(cfg: Config, s: Node, i: nat) {
    |set p | p in cfg.members && (p == cfg.self || MatchOf(s, p) >= i)| > |cfg.members| / 2
  }

  /** The index advanceCommitLocked picks: the greatest one above the commit index, at most `i`,
      that holds an entry of the leader's own term and is replicated. */
  function CommitTarget(cfg: Config, s: Node, i: nat): Option<nat>
    requires Shaped(s) && i <= Last(s)
    ensures var t := CommitTarget(cfg, s, i);
            t.Some? ==> s.commit < t.value <= i && s.log[t.value].term == s.term && Replicated(cfg, s, t.value)
  {
    if i <= s.commit then None
    else if s.log[i].term == s.term && Replicated(cfg, s, i) then Some(i)
    else CommitTarget(cfg, s, i - 1)
  }

  /** advanceCommitLocked */
  ghost function AdvanceCommit(cfg: Config, s: Node): Node
    requires Shaped(s)
    ensures Shaped(AdvanceCommit(cfg, s))
  {
    if s.role != Leader || !Available(s) then s
    else
      match CommitTarget(cfg, s, Last(s))
      case None => s
      case Some(i) =>
        var s1 := Persist(cfg, s, s.term, s.vote, i, 0, []);
        if s1.failed then s1 else ApplyLocked(cfg, s1)
  }

  /** Appends one entry of the leader's own term. */
  ghost function LeaderAppend(cfg: Config, s: Node, command: Option<SM.Command>): Node
    requires Shaped(s)
    ensures Shaped(LeaderAppend(cfg, s, command))
  {
    Persist(cfg, s, s.term, s.vote, s.commit, Last(s) + 1, [Entry(Last(s) + 1, s.term, command)])
  }

  /** becomeLeaderLocked up to its first persist. */
  ghost function Crowned(cfg: Config, s: Node): Node
    requires Shaped(s)
  {
    s.(role := Leader, leader := Some(cfg.self),
       next := Constant<Id, nat>(cfg.members, Last(s) + 1),
       matched := Constant<Id, nat>(cfg.members, 0))
  }

  /** becomeLeaderLocked after its opening entry is saved. */
  ghost function Elected(cfg: Config, s: Node): Node
    requires Shaped(s)
  {
    var c := Crowned(cfg, s);
    c.(log := s.log + [Entry(|s.log|, s.term, None)], matched := c.matched[cfg.self := |s.log|])
  }

  /** becomeLeaderLocked */
  ghost function BecomeLeader(cfg: Config, s: Node): Node
    requires Shaped(s)
    ensures Shaped(BecomeLeader(cfg, s))
  {
    var s1 := LeaderAppend(cfg, Crowned(cfg, s), None);
    if s1.failed then s1
    else AdvanceCommit(cfg, s1.(matched := s1.matched[cfg.self := Last(s1)]))
  }

  // ---- Elections ----

  /** What startElectionLocked makes of the node before any vote arrives. */
  ghost function Campaigning(cfg: Config, s: Node): Node
    requires Shaped(s)
    ensures Shaped(Campaigning(cfg, s))
  {
    var s1 := Persist(cfg, s, s.term + 1, Some(cfg.self), s.commit, 0, []);
    if s1.failed then s1 else s1.(role := Candidate, leader := None, votes := {cfg.self})
  }

  function Solicitation(cfg: Config, s: Node): VoteRequest
    requires Shaped(s)
  {
    VoteRequest(cfg.cluster, s.term, cfg.self, Last(s), LastTerm(s.log))
  }

  /** startElectionLocked, with the request it broadcasts if it did not win at once. */
  ghost function StartElection(cfg: Config, s: Node): (Node, Option<VoteRequest>)
    requires Shaped(s)
    ensures Shaped(StartElection(cfg, s).0)
  {
    var s1 := Campaigning(cfg, s);
    if s1.failed then (s1, None)
    else if |s1.votes| > |cfg.members| / 2 then (BecomeLeader(cfg, s1), None)
    else (s1, Some(Solicitation(cfg, s1)))
  }

  /** Tick, when the election timer has expired. */
  ghost function Timeout(cfg: Config, s: Node): (Node, Option<VoteRequest>)
    requires Shaped(s)
    ensures Shaped(Timeout(cfg, s).0)
  {
    if !Available(s) || s.role == Leader then (s, None) else StartElection(cfg, s)
  }

  datatype RpcError = NoError | NodeUnavailable | UnknownPeer | Malformed | DifferentCommand | OverwriteCommitted

  predicate Member(cfg: Config, id: Id, cluster: string) {
    id in cfg.members && id != cfg.self && cluster == cfg.cluster
  }

  /** RequestVote */
  ghost function HandleVote(cfg: Config, s: Node, req: VoteRequest): (Node, VoteResponse, RpcError)
    requires Shaped(s)
    ensures Shaped(HandleVote(cfg, s, req).0)
  {
    if !Available(s) then (s, VoteResponse(s.term, false), NodeUnavailable)
    else if !Member(cfg, req.candidate, req.cluster) then (s, VoteResponse(s.term, false), UnknownPeer)
    else if req.term < s.term then (s, VoteResponse(s.term, false), NoError)
    else
      var s1 := if req.term > s.term then StepDown(cfg, s, req.term, None) else s;
      if s1.failed then (s1, VoteResponse(s1.term, false), NodeUnavailable) else DecideVote(cfg, s1, req)
  }

  /** RequestVote, once the node is in the request's term. */
  ghost function DecideVote(cfg: Config, s: Node, req: VoteRequest): (Node, VoteResponse, RpcError)
    requires Shaped(s)
    ensures Shaped(DecideVote(cfg, s, req).0)
  {
    if !Grants(s, req) then (s, VoteResponse(s.term, false), NoError)
    else
      var s1 := if s.vote == None then Persist(cfg, s, req.term, Some(req.candidate), s.commit, 0, []) else s;
      if s1.failed then (s1, VoteResponse(s1.term, false), NodeUnavailable) else (s1, VoteResponse(s1.term, true), NoError)
  }

  predicate Grants(s: Node, req: VoteRequest)
    requires Shaped(s)
  {
    && (req.lastLogTerm > LastTerm(s.log) || (req.lastLogTerm == LastTerm(s.log) && req.lastLogIndex >= Last(s)))
    && (s.vote == None || s.vote == Some(req.candidate))
  }

  /** voteResponseLocked, for a response that arrived without a transport error. */
  ghost function HandleVoteResponse(cfg: Config, s: Node, from: Id, req: VoteRequest, resp: VoteResponse): Node
    requires Shaped(s)
    ensures Shaped(HandleVoteResponse(cfg, s, from, req, resp))
  {
    if !Available(s) then s
    else if resp.term > s.term then StepDown(cfg, s, resp.term, None)
    else if s.role != Candidate || s.term != req.term || resp.term != req.term || !resp.granted then s
    else
      var s1 := s.(votes := s.votes + {from});
      if |s1.votes| > |cfg.members| / 2 then BecomeLeader(cfg, s1) else s1
  }

  // ---- Replication ----

  /** The backward scan for the first entry of the conflicting term that the follower still has. */
  function ConflictStart(log: Log, base: nat, conflict: nat, term: nat): (c: nat)
    requires base <= conflict < |log|
    ensures base <= c <= conflict
  {
    if conflict > base && log[conflict - 1].term == term then ConflictStart(log, base, conflict - 1, term)
    else conflict
  }

  datatype Scan = Same | Differ(at: nat) | Bad(error: RpcError)

  /** The loop over the request's entries, from its `i`th on. */
  function ScanEntries(s: Node, req: AppendRequest, i: nat): (r: Scan)
    requires Shaped(s) && i <= |req.entries|
    ensures r.Bad? ==> r.error == Malformed || r.error == DifferentCommand
    ensures r.Differ? ==> r.at < |req.entries| && s.base < req.prevLogIndex + 1 + r.at
    ensures r.Differ? ==> req.entries[r.at].index == req.prevLogIndex + 1 + r.at
    ensures r.Differ? && req.prevLogIndex + 1 + i <= |s.log| ==> req.prevLogIndex + 1 + r.at <= |s.log|
    ensures r.Differ? && req.prevLogIndex + 1 + r.at < |s.log| ==>
              s.log[req.prevLogIndex + 1 + r.at].term != req.entries[r.at].term
    decreases |req.entries| - i
  {
    if i == |req.entries| then Same
    else
      var e := req.entries[i];
      if e.index != req.prevLogIndex + 1 + i || e.term > req.term || e.term == 0 then Bad(Malformed)
      else if e.index <= s.base then ScanEntries(s, req, i + 1)
      else if e.index > Last(s) || s.log[e.index].term != e.term then Differ(i)
      else if e != s.log[e.index] then Bad(DifferentCommand)
      else ScanEntries(s, req, i + 1)
  }

  /** The commit index a follower moves to when its log matches the request's through `matched`. */
  function FollowedCommit(commit: nat, leaderCommit: nat, matched: nat): nat {
    if leaderCommit > commit then
      var bounded := if leaderCommit < matched then leaderCommit else matched;
      if bounded > commit then bounded else commit
    else commit
  }

  function Refusal(s: Node): AppendResponse
    requires Shaped(s)
  {
    AppendResponse(s.term, false, 0, Last(s) + 1)
  }

  /** AppendEntries */
  ghost function HandleAppend(cfg: Config, s: Node, req: AppendRequest): (Node, AppendResponse, RpcError)
    requires Shaped(s)
    ensures Shaped(HandleAppend(cfg, s, req).0)
  {
    if !Available(s) then (s, Refusal(s), NodeUnavailable)
    else if !Member(cfg, req.leader, req.cluster) then (s, Refusal(s), UnknownPeer)
    else if req.term < s.term then (s, Refusal(s), NoError)
    else
      var s1 := StepDown(cfg, s, req.term, Some(req.leader));
      if s1.failed then (s1, Refusal(s1), NodeUnavailable) else Consistent(cfg, s1, req)
  }

  /** AppendEntries, once the node follows the sender: the consistency check at the request's previous entry. */
  ghost function Consistent(cfg: Config, s: Node, req: AppendRequest): (Node, AppendResponse, RpcError)
    requires Shaped(s)
    ensures Shaped(Consistent(cfg, s, req).0)
  {
    if req.prevLogIndex > Last(s) then (s, Refusal(s), NoError)
    else if req.prevLogIndex < s.base then (s, Refusal(s).(conflictIndex := s.base + 1), NoError)
    else if s.log[req.prevLogIndex].term != req.prevLogTerm then
      var conflict := ConflictStart(s.log, s.base, req.prevLogIndex, s.log[req.prevLogIndex].term);
      (s, Refusal(s).(conflictIndex := conflict), NoError)
    else MergeEntries(cfg, s, req)
  }

  /** What the loop over the entries decides: an error, or what to save from which index on (0: nothing). */
  datatype Decision = Reject(error: RpcError) | Save(from: nat, entries: seq<Entry>)

  function Decide(s: Node, req: AppendRequest): Decision
    requires Shaped(s)
  {
    match ScanEntries(s, req, 0)
    case Bad(error) => Reject(error)
    case Differ(i) =>
      if req.prevLogIndex + 1 + i <= s.commit then Reject(OverwriteCommitted)
      else Save(req.prevLogIndex + 1 + i, req.entries[i..])
    case Same => Save(0, [])
  }

  /** AppendEntries after the consistency check passed. */
  ghost function MergeEntries(cfg: Config, s: Node, req: AppendRequest): (Node, AppendResponse, RpcError)
    requires Shaped(s)
    ensures Shaped(MergeEntries(cfg, s, req).0)
  {
    var matched := req.prevLogIndex + |req.entries|;
    match Decide(s, req)
    case Reject(error) => (s, Refusal(s), error)
    case Save(from, entries) =>
      Merged(cfg, s, FollowedCommit(s.commit, req.leaderCommit, matched), from, entries, matched)
  }

  ghost function Merged(cfg: Config, s: Node, commit: nat, from: nat, entries: seq<Entry>, matched: nat): (Node, AppendResponse, RpcError)
    requires Shaped(s)
    ensures Shaped(Merged(cfg, s, commit, from, entries, matched).0)
  {
    if from == 0 && commit == s.commit then (s, AppendResponse(s.term, true, matched, 0), NoError)
    else
      var s1 := Persist(cfg, s, s.term, s.vote, commit, from, entries);
      if s1.failed then (s1, Refusal(s1), NodeUnavailable)
      else
        var s2 := ApplyLocked(cfg, s1);
        (s2, AppendResponse(s2.term, true, matched, 0), NoError)
  }

  lemma MergeBySave(cfg: Config, s: Node, req: AppendRequest, commit: nat, from: nat, entries: seq<Entry>)
    requires Shaped(s) && Decide(s, req) == Save(from, entries)
    requires commit == FollowedCommit(s.commit, req.leaderCommit, req.prevLogIndex + |req.entries|)
    ensures MergeEntries(cfg, s, req) == Merged(cfg, s, commit, from, entries, req.prevLogIndex + |req.entries|)
  {
    hide Merged;
  }

  // ---- What a leader sends ----

  const BATCH_ENTRIES: nat := 32
  const BATCH_BYTES: nat := 15728640

  /** An upper bound on an entry's encoded size: JSON may escape every byte sixfold. */
  function EntrySize(e: Entry): nat {
    match e.command
    case None => 1024
    case Some(c) => 1024 + 6 * (|c.key| + |c.value| + |c.expected| + |c.clientId|)
  }

  /** The batch loop: where the entries of a message that starts at `next` end. */
  function BatchEnd(log: Log, next: nat, end: nat, bytes: nat): (r: nat)
    requires next <= end <= |log|
    ensures end <= r <= |log|
    decreases |log| - end
  {
    if end < |log| && end - next < BATCH_ENTRIES && bytes + EntrySize(log[end]) <= BATCH_BYTES then
      BatchEnd(log, next, end + 1, bytes + EntrySize(log[end]))
    else end
  }

  function NextOf(s: Node, p: Id): nat {
    if p in s.next then s.next[p] else 0
  }

  /** The index from which prepareAppendLocked batches, before it looks at the base. */
  function NextIndex(s: Node, p: Id): nat
    requires Shaped(s)
  {
    var next := if NextOf(s, p) > 1 then NextOf(s, p) else 1;
    if next < |s.log| then next else |s.log|
  }

  /** prepareAppendLocked.  The batch loop reads the entry at `next` before `next` is clamped to the base,
      so below the base it is out of range: None. */
  function Prepare(cfg: Config, s: Node, p: Id): Option<AppendRequest>
    requires Shaped(s)
  {
    var next := NextIndex(s, p);
    if next < s.base then None
    else
      var end := BatchEnd(s.log, next, next, 1024);
      var prev := if next - 1 < s.base then s.base else next - 1;
      var entries := if prev + 1 <= end then s.log[prev + 1..end] else [];
      Some(AppendRequest(cfg.cluster, s.term, cfg.self, prev, s.log[prev].term, entries, s.commit))
  }

  /** acceptAppendLocked, for a response that arrived without a transport error. */
  ghost function HandleAppendResponse(cfg: Config, s: Node, from: Id, req: AppendRequest, resp: AppendResponse): Node
    requires Shaped(s) && s.applied == s.commit
    ensures Shaped(HandleAppendResponse(cfg, s, from, req, resp))
  {
    if !Available(s) then s
    else if resp.term > s.term then StepDown(cfg, s, resp.term, None)
    else if s.role != Leader || s.term != req.term || resp.term != req.term then s
    else if resp.success then
      var s1 := AdvanceCommit(cfg, Counted(s, from, req.prevLogIndex + |req.entries|));
      AdvanceCommitSettles(cfg, Counted(s, from, req.prevLogIndex + |req.entries|));
      MaybeSnapshot(cfg, s1)
    else BackedOff(s, from, req, resp)
  }

  function Counted(s: Node, from: Id, index: nat): Node {
    var m := if MatchOf(s, from) > index then MatchOf(s, from) else index;
    s.(matched := s.matched[from := m], next := s.next[from := m + 1])
  }

  function BackedOff(s: Node, from: Id, req: AppendRequest, resp: AppendResponse): Node {
    if req.prevLogIndex == 0 then s
    else
      var least := if req.prevLogIndex < resp.conflictIndex then req.prevLogIndex else resp.conflictIndex;
      s.(next := s.next[from := if least > 1 then least else 1])
  }

  lemma AdvanceCommitSettles(cfg: Config, s: Node)
    requires Shaped(s) && s.applied == s.commit
    ensures var s1 := AdvanceCommit(cfg, s); s1.role == Leader ==> s1.applied == s1.commit
  {
    hide Persist;
    if s.role == Leader && Available(s) && CommitTarget(cfg, s, Last(s)).Some? {
      var i := CommitTarget(cfg, s, Last(s)).value;
      var s1 := Persist(cfg, s, s.term, s.vote, i, 0, []);
      HardStateOnly(cfg, s, s.term, s.vote, i);
      ApplyLockedSettles(cfg, s1);
    }
  }

  lemma ApplyLockedSettles(cfg: Config, s: Node)
    requires Shaped(s)
    ensures var s1 := ApplyLocked(cfg, s); s1.role == Leader ==> s1.applied == s1.commit
  {
    AppliedToCommit(s);
  }

  // ---- Clients ----

  datatype SubmitError = SubmitUnavailable | SubmitNotLeader(leader: Option<Id>) | SubmitInvalid | SubmitNoQuorum

  /** submitLocked: the node, and the index of the proposal or an error. */
  ghost function Submit(cfg: Config, s: Node, command: Option<SM.Command>, readKey: Option<SM.Text>, ticket: nat)
    : (Node, Option<nat>, Option<SubmitError>)
    requires Shaped(s)
    ensures Shaped(Submit(cfg, s, command, readKey, ticket).0)
  {
    if !Available(s) then (s, None, Some(SubmitUnavailable))
    else if s.role != Leader then (s, None, Some(SubmitNotLeader(s.leader)))
    else if command.Some? && !SM.ValidCommand(command.value) then (s, None, Some(SubmitInvalid))
    else if Last(s) - s.commit >= 256 then (s, None, Some(SubmitNoQuorum))
    else
      var s1 := LeaderAppend(cfg, s, command);
      if s1.failed then (s1, None, Some(SubmitUnavailable))
      else (AdvanceCommit(cfg, Registered(cfg, s1, Waiter(ticket, readKey))), Some(Last(s1)), None)
  }

  /** The waiter for a freshly appended proposal. */
  function Registered(cfg: Config, s: Node, w: Waiter): Node
    requires Shaped(s)
  {
    s.(pending := s.pending[Last(s) := w], matched := s.matched[cfg.self := Last(s)])
  }

  /** SetPaused */
  ghost function Paused(s: Node, paused: bool): Node {
    if paused then FailPending(s.(paused := true), Unavailable) else s.(paused := false)
  }

  /** Ticket.Cancel */
  function Cancelled(s: Node, index: nat, ticket: nat): Node {
    if index in s.pending && s.pending[index].ticket == ticket then s.(pending := s.pending - {index}) else s
  }

  /** A restart: volatile state is lost, and the machine is rebuilt from the checkpoint and the
      committed part of the log above it. */
  function Reopened(s: Node): Node
    requires Shaped(s)
  {
    s.(role := Follower, leader := None, applied := s.base, machine := s.snapshot, votes := {},
       next := map[], matched := map[], pending := map[], answers := map[], paused := false, failed := false)
  }

  ghost function Restart(cfg: Config, s: Node): Node
    requires Shaped(s)
    ensures Shaped(Restart(cfg, s))
  {
    ApplyLocked(cfg, Reopened(s))
  }
}
