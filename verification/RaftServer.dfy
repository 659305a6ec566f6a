/** One node as the program holds it (internal/raft: node.go, rpc.go, runtime.go): fields changed in place, a
    journalled store that compacts its log, and a disk that may fail at any write.  Every method is proved
    against the value model of NodeModel. */
module RaftServer {
  import opened Wrappers
  import opened RaftTypes
  import opened NodeModel
  import opened CrashPoints
  import opened Committing
  import D = DiskStore
  import SM = StateMachine
  import St = Store
  import T = Tickets

  // ---- Set and sequence facts the loops need ----

  predicate Distinct(ps: seq<Id>) {
    forall i, j :: 0 <= i < j < |ps| ==> ps[i] != ps[j]
  }

  /** The other members among `ps` that are known to hold index `i`. */
  function Holders(s: Node, self: Id, ps: seq<Id>, i: nat): set<Id> {
    set p | p in ps && p != self && MatchOf(s, p) >= i
  }

  lemma HoldersNext(s: Node, self: Id, ps: seq<Id>, k: nat, i: nat)
    requires k < |ps| && Distinct(ps)
    ensures |Holders(s, self, ps[..k + 1], i)|
         == |Holders(s, self, ps[..k], i)| + if ps[k] != self && MatchOf(s, ps[k]) >= i then 1 else 0
  {
    assert ps[..k + 1] == ps[..k] + [ps[k]];
    assert ps[k] !in Holders(s, self, ps[..k], i);
    assert Holders(s, self, ps[..k + 1], i)
        == Holders(s, self, ps[..k], i) + if ps[k] != self && MatchOf(s, ps[k]) >= i then {ps[k]} else {};
  }

  /** Counting the other holders and the node itself counts the holders. */
  lemma HoldersDecide(cfg: Config, s: Node, ps: seq<Id>, i: nat)
    requires Distinct(ps) && cfg.self in ps && cfg.members == Named(ps)
    ensures 1 + |Holders(s, cfg.self, ps, i)| > |ps| / 2 <==> NodeModel.Replicated(cfg, s, i)
  {
    DistinctCount(ps);
    assert (set p | p in cfg.members && (p == cfg.self || MatchOf(s, p) >= i)) == Holders(s, cfg.self, ps, i) + {cfg.self};
  }

  function Named(ps: seq<Id>): set<Id> {
    set p | p in ps
  }

  lemma NamedNext(ps: seq<Id>, k: nat)
    requires k < |ps|
    ensures Named(ps[..k + 1]) == Named(ps[..k]) + {ps[k]}
  {
    assert ps[..k + 1] == ps[..k] + [ps[k]];
  }

  lemma ConstantNext(keys: set<Id>, k: Id, v: nat)
    ensures Constant<Id, nat>(keys, v)[k := v] == Constant<Id, nat>(keys + {k}, v)
  {
  }

  lemma TicketOf(pending: map<nat, Waiter>, t: nat)
    ensures t in Tickets(pending) <==> exists i :: i in pending && pending[i].ticket == t
  {
    forall i | i in pending && pending[i].ticket == t ensures t in Tickets(pending) {
      assert pending[i] in pending.Values;
    }
    if t in Tickets(pending) {
      var w :| w in pending.Values && w.ticket == t;
      assert exists i :: i in pending && pending[i] == w;
    }
  }

  lemma TicketsRemoved(pending: map<nat, Waiter>, i: nat)
    requires i in pending
    ensures Tickets(pending) == Tickets(pending - {i}) + {pending[i].ticket}
  {
    forall t ensures t in Tickets(pending) <==> t in Tickets(pending - {i}) + {pending[i].ticket} {
      TicketOf(pending, t);
      TicketOf(pending - {i}, t);
      assert forall k :: k in pending <==> k in pending - {i} || k == i;
    }
  }

  lemma TellOne(answers: map<nat, Answer>, pending: map<nat, Waiter>, i: nat, a: Answer)
    requires i in pending
    ensures answers[pending[i].ticket := a] + Constant<nat, Answer>(Tickets(pending - {i}), a) == answers + Constant<nat, Answer>(Tickets(pending), a)
  {
    TicketsRemoved(pending, i);
  }

  lemma NothingToTell(answers: map<nat, Answer>, a: Answer)
    ensures answers + Constant<nat, Answer>(Tickets(map[]), a) == answers
  {
    assert Tickets(map[]) == {};
  }

  /** Splicing the store's part of the log splices the whole log. */
  lemma SplicedLog(below: Log, log: Log, from: nat, entries: seq<Entry>)
    requires |below| <= from <= |below| + |log|
    ensures (below + log)[..from] + entries == below + (log[..from - |below|] + entries)
  {
  }

  /** Node `s` is the view of a store that holds `held` and has compacted `below` away. */
  ghost predicate Views(s: Node, held: St.Stored, below: Log) {
    && s.term == held.state.term && s.vote == held.state.vote && s.commit == held.state.commit && s.base == held.state.base
    && s.log == below + held.state.log && s.snapshot == held.snapshot && |below| == held.state.base && St.Shaped(held.state)
  }

  lemma ViewedDisk(s: Node, held: St.Stored, below: Log)
    requires Shaped(s) && Views(s, held, below)
    ensures Disk(s) == held.state && HardState(s) == held
  {
    assert s.log[s.base..] == held.state.log;
  }

  lemma CheckpointTaken(cfg: Config, s: Node, held: St.Stored)
    requires Shaped(s) && St.Shaped(held.state)
    ensures St.Accepted(held, CheckpointRecord(cfg, s))
         == St.Stored(St.DurableState(s.term, s.vote, s.commit, s.commit, s.log[s.commit..]), s.machine)
  {
  }

  /** Checkpointing in the store is compacting in the model. */
  lemma CheckpointView(cfg: Config, s: Node, held: St.Stored, below: Log)
    requires Shaped(s) && s.applied == s.commit && Views(s, held, below)
    ensures CheckpointRecord(cfg, s) == D.CheckpointAt(held.state, cfg.identity, s.machine, s.commit)
    ensures Disk(s) == held.state && HardState(s) == held
    ensures var s', after := s.(base := s.commit, snapshot := s.machine), St.Accepted(held, CheckpointRecord(cfg, s));
            && HardState(s') == after
            && after == St.Stored(St.DurableState(s.term, s.vote, s.commit, s.commit, s.log[s.commit..]), s.machine)
            && s.log == s.log[..s.commit] + s.log[s.commit..]
  {
    hide St.Accepted;
    ViewedDisk(s, held, below);
    CheckpointTaken(cfg, s, held);
    assert s.log[s.commit..] == held.state.log[s.commit - s.base..];
    assert s.log[..s.commit] + s.log[s.commit..] == s.log;
  }

  /** The hard state apart, the two are the same node. */
  predicate SameVolatile(a: Node, b: Node) {
    && a.role == b.role && a.leader == b.leader && a.applied == b.applied && a.machine == b.machine && a.votes == b.votes
    && a.next == b.next && a.matched == b.matched && a.pending == b.pending && a.answers == b.answers
    && a.paused == b.paused && a.failed == b.failed
  }

  lemma ViewDetermines(a: Node, b: Node, held: St.Stored, below: Log)
    requires Views(a, held, below) && Views(b, held, below) && SameVolatile(a, b)
    ensures a == b
  {
  }

  lemma PersistIs(cfg: Config, s: Node, r: St.Record)
    requires Shaped(s) && r.identity == cfg.identity && r.checkpoint.None?
    ensures NodeModel.Persist(cfg, s, r.term, r.vote, r.commit, r.from, r.entries)
         == if St.Objection(Disk(s), cfg.identity, r).Some? then Crashed(s)
            else s.(term := r.term, vote := r.vote, commit := r.commit,
                    log := if r.from != 0 then s.log[..r.from] + r.entries else s.log)
  {
    hide St.Objection, Crashed;
  }

  lemma SavingKeepsRole(cfg: Config, s: Node, term: nat, vote: Option<Id>, commit: nat, from: nat, entries: seq<Entry>)
    requires Shaped(s)
    ensures var s1 := NodeModel.Persist(cfg, s, term, vote, commit, from, entries); s1.role == s.role || s1.role == Follower
  {
    hide St.Objection;
  }

  lemma StepsDown(cfg: Config, s: Node, term: nat, leader: Option<Id>)
    requires Shaped(s) && !s.failed && term >= s.term
    ensures var s1 := NodeModel.StepDown(cfg, s, term, leader); !s1.failed ==> s1.term == term && s1.role == Follower
  {
    hide NodeModel.Persist;
    HardStateOnly(cfg, s, term, None, s.commit);
  }

  /** Saving in the store is persisting in the model. */
  lemma SavedView(cfg: Config, s: Node, held: St.Stored, below: Log, r: St.Record)
    requires Shaped(s) && Views(s, held, below) && r.identity == cfg.identity && r.checkpoint.None?
    ensures var s' := NodeModel.Persist(cfg, s, r.term, r.vote, r.commit, r.from, r.entries);
            if St.Objection(held.state, cfg.identity, r).Some? then s' == Crashed(s)
            else
              && (r.from != 0 ==> held.state.base <= r.from <= held.state.base + |held.state.log|)
              && Views(s', St.Accepted(held, r), below)
              && SameVolatile(s, s')
  {
    hide NodeModel.Persist, St.Objection, Crashed;
    ViewedDisk(s, held, below);
    PersistIs(cfg, s, r);
    if St.Objection(held.state, cfg.identity, r).None? {
      St.AcceptedIsShaped(held, cfg.identity, r);
      if r.from != 0 {
        SplicedLog(below, held.state.log, r.from, r.entries);
      }
    }
  }

  /** And what the model then keeps on disk is what the store does. */
  lemma SavedKept(cfg: Config, s: Node, held: St.Stored, below: Log, r: St.Record)
    requires Shaped(s) && Views(s, held, below) && r.identity == cfg.identity && r.checkpoint.None?
    ensures var kept := HardState(NodeModel.Persist(cfg, s, r.term, r.vote, r.commit, r.from, r.entries));
            if St.Objection(held.state, cfg.identity, r).Some? then kept == held
            else
              && (r.from != 0 ==> held.state.base <= r.from <= held.state.base + |held.state.log|)
              && kept == St.Accepted(held, r)
  {
    hide NodeModel.Persist, St.Objection, St.Accepted;
    SavedView(cfg, s, held, below, r);
    if St.Objection(held.state, cfg.identity, r).Some? {
      ViewedDisk(s, held, below);
      CrashKeeps(s);
    } else {
      ViewedDisk(NodeModel.Persist(cfg, s, r.term, r.vote, r.commit, r.from, r.entries), St.Accepted(held, r), below);
    }
  }

  lemma {:induction false} DistinctCount(ps: seq<Id>)
    requires Distinct(ps)
    ensures |Named(ps)| == |ps|
  {
    if ps == [] {
      assert Named(ps) == {};
    } else {
      var front := ps[..|ps| - 1];
      DistinctCount(front);
      NamedNext(ps, |ps| - 1);
      assert ps[..|ps|] == ps;
      assert forall i :: 0 <= i < |front| ==> front[i] != ps[|ps| - 1];
    }
  }

  lemma SliceGrows(log: Log, from: nat, i: nat)
    requires from <= i < |log|
    ensures log[from..i + 1] == log[from..i] + [log[i]]
  {
  }

  /** The waiter for the entry just applied is answered. */
  function Told(s: Node, out: SM.Outcome): Node {
    if s.applied in s.pending then
      var w := s.pending[s.applied];
      s.(pending := s.pending - {s.applied}, answers := s.answers[w.ticket := Answered(Hear(s.machine, out, w.readKey))])
    else s
  }

  lemma AppliedNext(s: Node)
    requires Shaped(s) && s.applied < s.commit
    ensures var (after, out) := ApplyEntry(s.machine, s.log[s.applied + 1]);
            NodeModel.ApplyNext(s) == Told(s.(applied := s.applied + 1, machine := after), out)
  {
    hide ApplyEntry, Hear;
  }

  // ---- The handlers, branch by branch ----

  lemma MergeByReject(cfg: Config, s: Node, req: AppendRequest, error: RpcError)
    requires Shaped(s) && NodeModel.Decide(s, req) == Reject(error)
    ensures MergeEntries(cfg, s, req) == (s, Refusal(s), error)
  {
  }

  lemma PreparedIs(cfg: Config, s: Node, p: Id, n: nat, end: nat, prev: nat, entries: seq<Entry>, previous: Entry)
    requires Shaped(s) && n == NextIndex(s, p) && n >= s.base && end == BatchEnd(s.log, n, n, 1024)
    requires prev == (if n - 1 < s.base then s.base else n - 1) && previous == s.log[prev]
    requires entries == if prev + 1 <= end then s.log[prev + 1..end] else []
    ensures Prepare(cfg, s, p) == Some(AppendRequest(cfg.cluster, s.term, cfg.self, prev, previous.term, entries, s.commit))
  {
  }

  /** The response is one to the leader's request in its present term. */
  predicate Current(s: Node, req: AppendRequest, resp: AppendResponse) {
    Available(s) && s.role == Leader && s.term == req.term == resp.term
  }

  lemma ResponseDeposes(cfg: Config, s: Node, from: Id, req: AppendRequest, resp: AppendResponse)
    requires Shaped(s) && s.applied == s.commit && Available(s) && resp.term > s.term
    ensures HandleAppendResponse(cfg, s, from, req, resp) == NodeModel.StepDown(cfg, s, resp.term, None)
  {
  }

  lemma ResponseIgnored(cfg: Config, s: Node, from: Id, req: AppendRequest, resp: AppendResponse)
    requires Shaped(s) && s.applied == s.commit && !Current(s, req, resp) && (Available(s) ==> resp.term <= s.term)
    ensures HandleAppendResponse(cfg, s, from, req, resp) == s
  {
  }

  lemma ResponseCounts(cfg: Config, s: Node, s0: Node, from: Id, req: AppendRequest, resp: AppendResponse)
    requires Shaped(s) && s.applied == s.commit && Current(s, req, resp) && resp.success
    requires s0 == Counted(s, from, req.prevLogIndex + |req.entries|)
    ensures var s1 := NodeModel.AdvanceCommit(cfg, s0);
            && (s1.role == Leader ==> s1.applied == s1.commit)
            && HandleAppendResponse(cfg, s, from, req, resp) == NodeModel.MaybeSnapshot(cfg, s1)
            && AppendReplyMoments(cfg, s, from, req, resp) == AdvanceMoments(cfg, s0) + OneWrite(s1, NodeModel.MaybeSnapshot(cfg, s1))
  {
    hide NodeModel.AdvanceCommit, NodeModel.MaybeSnapshot, AdvanceMoments, OneWrite;
    AdvanceCommitSettles(cfg, s0);
  }

  lemma FailedStays(cfg: Config, s: Node)
    requires Shaped(s) && s.role == Follower
    ensures NodeModel.MaybeSnapshot(cfg, s) == s
  {
  }

  lemma ResponseBacksOff(cfg: Config, s: Node, from: Id, req: AppendRequest, resp: AppendResponse)
    requires Shaped(s) && s.applied == s.commit && Current(s, req, resp) && !resp.success
    ensures HandleAppendResponse(cfg, s, from, req, resp) == BackedOff(s, from, req, resp)
  {
  }

  lemma VoteStarts(cfg: Config, s: Node, req: VoteRequest)
    requires Shaped(s)
    ensures Moment(s, HardState(s)) in VoteMoments(cfg, s, req)
  {
    hide NodeModel.StepDown, NodeModel.DecideVote, HardState;
  }

  lemma AppendStarts(cfg: Config, s: Node, req: AppendRequest)
    requires Shaped(s)
    ensures Moment(s, HardState(s)) in AppendMoments(cfg, s, req)
  {
    hide NodeModel.StepDown, Consistent, HardState;
  }

  lemma ElectionGoes(cfg: Config, s: Node)
    requires Shaped(s)
    ensures var s1 := Campaigning(cfg, s);
            ElectionMoments(cfg, s)
            == OneWrite(s, s1) + if !s1.failed && |s1.votes| > |cfg.members| / 2 then LeadMoments(cfg, s1) else {}
  {
  }

  lemma ProposalGoes(cfg: Config, s: Node, command: Option<SM.Command>, readKey: Option<SM.Text>, ticket: nat)
    requires Shaped(s)
    ensures var s1 := LeaderAppend(cfg, s, command);
            ProposalMoments(cfg, s, command, readKey, ticket)
            == OneWrite(s, s1) + if s1.failed then {} else AdvanceMoments(cfg, Registered(cfg, s1, Waiter(ticket, readKey)))
  {
  }

  class Server {
    const cfg: Config
    /** The configured peers in order, this node among them. */
    const peers: seq<Id>
    const store: D.Disk
    const machine: SM.Machine
    var role: Role
    var leader: Option<Id>
    var applied: nat
    var votes: set<Id>
    var next: map<Id, nat>
    var matched: map<Id, nat>
    var pending: map<nat, Waiter>
    /** What was sent on the waiters' channels. */
    var answers: map<nat, Answer>
    var paused: bool
    var failed: bool
    /** What the disk will do to the coming writes; it is healthy after these. */
    var plan: seq<D.Fault>
    /** The entries that the store has compacted away. */
    ghost var below: Log

    ghost function Abs(): Node
      reads this, store, machine
    {
      Node(store.state.term, store.state.vote, store.state.commit, store.state.base, below + store.state.log, store.snapshot,
           role, leader, applied, machine.Abs(), votes, next, matched, pending, answers, paused, failed)
    }

    /** What a reopening would find on disk. */
    ghost function OnDisk(): St.Stored
      requires store.Durable().Some?
      reads this, store, store.wal
    {
      store.Durable().value
    }

    /** The node failed at one of `moments`: its disk is as then, and it has crashed in the state it had then, all
        answers its clients got by then included. */
    ghost predicate FailedAt(moments: set<Moment>)
      requires store.Durable().Some?
      reads this, store, store.wal, machine
    {
      exists m :: m in moments && m.disk == OnDisk() && Abs() == Crashed(m.node)
    }

    /** Since `was`, the disk went through nothing but what `moments` have on it, and holds one of these now; a
        failure was at one of them. */
    ghost predicate Went(was: seq<St.Stored>, moments: set<Moment>)
      reads this, store, store.wal, machine
    {
      && Passes(was, store.trail, moments) && store.Durable().Some? && OnDiskIn(moments, OnDisk())
      && (failed ==> FailedAt(moments))
    }

    lemma Viewed()
      requires Coherent()
      ensures Views(Abs(), store.Held(), below)
    {
    }

    lemma Starts()
      requires Valid() && !failed
      ensures HardState(Abs()) == store.Held()
      ensures |store.trail| > 0 && store.trail[|store.trail| - 1] == store.Held()
    {
      ViewedDisk(Abs(), store.Held(), below);
    }

    lemma Synced()
      requires Valid() && !failed
      ensures store.Durable().Some? && OnDisk() == store.Held()
    {
    }

    /** What saving a record will do, on disk and in the model. */
    lemma Foresees(r: St.Record)
      requires Valid() && !failed && r.identity == cfg.identity && r.checkpoint.None?
      ensures var s, held := Abs(), store.Held();
              var s' := NodeModel.Persist(cfg, s, r.term, r.vote, r.commit, r.from, r.entries);
              && HardState(s) == held && |store.trail| > 0 && store.trail[|store.trail| - 1] == held
              && if St.Objection(held.state, cfg.identity, r).Some? then s' == Crashed(s) && HardState(s') == held
                 else
                   && (r.from != 0 ==> held.state.base <= r.from <= held.state.base + |held.state.log|)
                   && Views(s', St.Accepted(held, r), below) && SameVolatile(s, s') && HardState(s') == St.Accepted(held, r)
    {
      hide NodeModel.Persist, St.Objection, St.Accepted, D.Disk.Valid, Views, HardState, Crashed, Distinct, Named;
      Viewed();
      Starts();
      SavedView(cfg, Abs(), store.Held(), below, r);
      SavedKept(cfg, Abs(), store.Held(), below, r);
    }

    /** Nothing was written. */
    lemma Stays(s: Node, all: set<Moment>)
      requires Valid() && !failed && Shaped(s) && HardState(s) == HardState(Abs()) && Moment(s, HardState(s)) in all
      ensures Went(store.trail, all)
    {
      hide HardState;
      Starts();
      PassesNone(store.trail, s, all);
      Ends(store.trail, all);
    }

    lemma StaysBefore(s': Node)
      requires Valid() && !failed && Shaped(s')
      ensures Went(store.trail, OneWrite(Abs(), s')) && Passes(store.trail, store.trail, OneWrite(Abs(), s'))
    {
      hide HardState, Crashed, Passes;
      Stays(Abs(), OneWrite(Abs(), s'));
    }

    /** A node that did not fail. */
    lemma Ends(was: seq<St.Stored>, moments: set<Moment>)
      requires Valid() && !failed && Passes(was, store.trail, moments)
      ensures Went(was, moments)
    {
      hide OnDiskIn;
    }

    lemma WentPasses(was: seq<St.Stored>, moments: set<Moment>)
      requires Went(was, moments)
      ensures Passes(was, store.trail, moments)
    {
    }

    /** A node that failed at its only write. */
    lemma Stops(was: seq<St.Stored>, s: Node, s': Node)
      requires Valid() && failed && Shaped(s) && Shaped(s') && Abs() == Crashed(s) && Passes(was, store.trail, OneWrite(s, s'))
      ensures Went(was, OneWrite(s, s'))
    {
      hide HardState, Crashed;
      var m :| m in OneWrite(s, s') && m.disk == store.trail[|store.trail| - 1];
    }

    lemma Widens(was: seq<St.Stored>, moments: set<Moment>, all: set<Moment>)
      requires Went(was, moments) && moments <= all
      ensures Went(was, all)
    {
      hide Crashed;
      PassesMore(was, store.trail, moments, all);
    }

    lemma GoesOn(was: seq<St.Stored>, saved: seq<St.Stored>, moments: set<Moment>, more: set<Moment>, all: set<Moment>)
      requires Passes(was, saved, moments) && Went(saved, more) && moments + more <= all
      ensures Went(was, all)
    {
      hide Crashed;
      PassesOn(was, saved, store.trail, moments, more, all);
    }

    ghost predicate Coherent()
      reads this, store, store.wal, machine
    {
      && store.Valid() && store.identity == cfg.identity
      && |below| == store.state.base && Shaped(Abs())
      && Distinct(peers) && cfg.self in peers && cfg.members == Named(peers)
    }

    ghost predicate Valid()
      reads this, store, store.wal, machine
    {
      && Coherent()
      && (!failed ==> !store.wal.broken)
      && (failed ==> role == Follower && pending == map[])
    }

    /** A node over an opened store, its machine at the checkpoint, before anything is applied. */
    constructor (cfg: Config, peers: seq<Id>, store: D.Disk, machine: SM.Machine, plan: seq<D.Fault>, ghost below: Log)
      requires store.Valid() && !store.wal.broken && store.identity == cfg.identity && |below| == store.state.base
      requires Distinct(peers) && cfg.self in peers && cfg.members == Named(peers)
      ensures Valid() && this.cfg == cfg && this.store == store && this.machine == machine && this.plan == plan
      ensures Abs() == Node(store.state.term, store.state.vote, store.state.commit, store.state.base, below + store.state.log,
                            store.snapshot, Follower, None, store.state.base, machine.Abs(), {}, map[], map[], map[], map[],
                            false, false)
    {
      this.cfg, this.peers, this.store, this.machine, this.plan, this.below := cfg, peers, store, machine, plan, below;
      role, leader, applied, votes := Follower, None, store.state.base, {};
      next, matched, pending, answers := map[], map[], map[], map[];
      paused, failed := false, false;
    }

    method NextFault() returns (fault: D.Fault)
      modifies this`plan
      ensures old(plan) == [] ==> fault == D.Healthy && plan == []
    {
      if plan == [] {
        return D.Healthy;
      }
      fault := plan[0];
      plan := plan[1..];
    }

    method FailPending(a: Answer)
      modifies this`pending, this`answers
      ensures Abs() == NodeModel.FailPending(old(Abs()), a)
      ensures T.TellsAll(old(Abs()), Abs(), a)
    {
      hide T.TellsAll, NodeModel.FailPending;
      T.FailPendingTells(Abs(), Abs(), a);
      TellWaiters(a);
    }

    /** The loop of failPendingLocked. */
    method TellWaiters(a: Answer)
      modifies this`pending, this`answers
      ensures Abs() == NodeModel.FailPending(old(Abs()), a)
    {
      ghost var told := answers + Constant<nat, Answer>(Tickets(pending), a);
      while pending != map[]
        invariant answers + Constant<nat, Answer>(Tickets(pending), a) == told
        decreases |pending|
      {
        var i :| i in pending;
        TellOne(answers, pending, i, a);
        answers := answers[pending[i].ticket := a];
        pending := pending - {i};
      }
      NothingToTell(answers, a);
    }

    // ---- Pieces shared by the handlers ----

    method Crash()
      requires Coherent()
      modifies this
      ensures Valid() && Abs() == Crashed(old(Abs())) && failed && plan == old(plan) && below == old(below)
    {
      failed := true;
      role := Follower;
      leader := None;
      FailPending(Unavailable);
    }

    /** persistLocked: what is not saved crashes the node. */
    method Persist(term: nat, vote: Option<Id>, commit: nat, from: nat, entries: seq<Entry>) returns (ok: bool)
      requires Valid() && !failed
      modifies this, store, store.wal
      ensures Valid() && ok == !failed
      ensures !failed || old(plan) == [] ==> Abs() == NodeModel.Persist(cfg, old(Abs()), term, vote, commit, from, entries)
      ensures var s := old(Abs());
              Went(old(store.trail), OneWrite(s, NodeModel.Persist(cfg, s, term, vote, commit, from, entries)))
      ensures old(plan) == [] ==> plan == []
    {
      hide NodeModel.Persist, Passes, D.Disk.Valid, HardState, Crashed, Distinct, Named, OneWrite, Went;
      ghost var s, was := Abs(), store.trail;
      ghost var s' := NodeModel.Persist(cfg, s, term, vote, commit, from, entries);
      ok := TrySave(term, vote, commit, from, entries);
      if ok {
        Ends(was, OneWrite(s, s'));
      } else {
        Crash();
        Stops(was, s, s');
      }
    }

    method TrySave(term: nat, vote: Option<Id>, commit: nat, from: nat, entries: seq<Entry>) returns (ok: bool)
      requires Valid() && !failed
      modifies this`plan, store, store.wal
      ensures Coherent() && (ok ==> !store.wal.broken)
      ensures var s := old(Abs());
              var s' := NodeModel.Persist(cfg, s, term, vote, commit, from, entries);
              && Abs() == (if ok then s' else s)
              && (!ok && old(plan) == [] ==> s' == Crashed(s))
              && Passes(old(store.trail), store.trail, OneWrite(s, s'))
      ensures old(plan) == [] ==> plan == []
    {
      ghost var s, held, was, r := Abs(), store.Held(), store.trail, D.SaveRecord(cfg.identity, term, vote, commit, from, entries);
      hide NodeModel.Persist, Passes, OneWrite, St.Objection, St.Accepted, D.Disk.Valid, Views, HardState, Crashed, Distinct, Named;
      Foresees(r);
      ok := WriteSave(term, vote, commit, from, entries, r);
      PassesOne(was, store.trail, s, NodeModel.Persist(cfg, s, term, vote, commit, from, entries));
      if ok {
        Viewed();
        ViewDetermines(Abs(), NodeModel.Persist(cfg, s, term, vote, commit, from, entries), store.Held(), below);
      }
    }

    /** The record is appended to the journal, unless the store objects or the write fails. */
    method WriteSave(term: nat, vote: Option<Id>, commit: nat, from: nat, entries: seq<Entry>, ghost r: St.Record) returns (ok: bool)
      requires Valid() && !failed && r == D.SaveRecord(cfg.identity, term, vote, commit, from, entries)
      modifies this`plan, store, store.wal
      ensures store.Valid() && (ok ==> !store.wal.broken)
      ensures var held := old(store.Held());
              if St.Objection(held.state, cfg.identity, r).Some? then
                !ok && store.Held() == held && store.trail == old(store.trail)
              else
                && (old(plan) == [] ==> ok)
                && (r.from != 0 ==> held.state.base <= r.from <= held.state.base + |held.state.log|)
                && store.Held() == (if ok then St.Accepted(held, r) else held)
                && (store.trail == old(store.trail) || store.trail == old(store.trail) + [St.Accepted(held, r)])
      ensures old(plan) == [] ==> plan == []
    {
      hide St.Objection, St.Accepted, D.Disk.Valid, Distinct, Named;
      var fault := NextFault();
      var error := store.Save(term, vote, commit, from, entries, fault);
      ok := error.None?;
    }

    /** stepDownLocked */
    method StepDown(term: nat, newLeader: Option<Id>) returns (ok: bool)
      requires Valid() && !failed
      modifies this, store, store.wal
      ensures Valid() && ok == !failed
      ensures !failed || old(plan) == [] ==> Abs() == NodeModel.StepDown(cfg, old(Abs()), term, newLeader)
      ensures Went(old(store.trail), StepDownMoments(cfg, old(Abs()), term, newLeader))
      ensures old(plan) == [] ==> plan == []
    {
      hide NodeModel.Persist, Passes, HardState, Went;
      ghost var s, was := Abs(), store.trail;
      StepDownKeeps(cfg, s, term, newLeader);
      Stays(s, StepDownMoments(cfg, s, term, newLeader));
      if term > store.state.term {
        ok := Persist(term, None, store.state.commit, 0, []);
        if !ok {
          return;
        }
      }
      WentPasses(was, StepDownMoments(cfg, s, term, newLeader));
      role := Follower;
      leader := newLeader;
      FailPending(NotLeader(newLeader));
      Ends(was, StepDownMoments(cfg, s, term, newLeader));
      return true;
    }

    method EntryAt(index: nat) returns (e: Entry)
      requires Valid() && store.state.base <= index < |Abs().log|
      ensures e == Abs().log[index]
    {
      e := store.At(index);
    }

    /** The loop of applyLocked. */
    method ApplyCommitted()
      requires Valid()
      modifies this, machine
      ensures Valid() && plan == old(plan) && Abs() == NodeModel.ApplyAll(old(Abs()))
    {
      hide D.Disk.Valid;
      while applied < store.state.commit
        invariant Valid() && plan == old(plan)
        invariant NodeModel.ApplyAll(Abs()) == NodeModel.ApplyAll(old(Abs()))
        decreases store.state.commit - applied
      {
        ApplyOne();
      }
    }

    method ApplyOne()
      requires Valid() && applied < store.state.commit
      modifies this`applied, this`pending, this`answers, machine
      ensures Valid() && Abs() == NodeModel.ApplyNext(old(Abs()))
    {
      hide D.Disk.Valid, ApplyEntry, Hear, NodeModel.ApplyNext, Distinct, Named;
      AppliedNext(Abs());
      var out := ApplyToMachine();
      Tell(out);
    }

    /** The machine executes the next entry. */
    method ApplyToMachine() returns (out: SM.Outcome)
      requires Valid() && applied < store.state.commit
      modifies this`applied, machine
      ensures Valid()
      ensures var s := old(Abs());
              var (after, result) := ApplyEntry(s.machine, s.log[s.applied + 1]);
              out == result && Abs() == s.(applied := s.applied + 1, machine := after)
    {
      hide D.Disk.Valid, SM.Apply, Distinct, Named;
      applied := applied + 1;
      var e := store.At(applied);
      assert e == Abs().log[applied];
      out := SM.Outcome(SM.EMPTY_REPLY, None);
      if e.command.Some? {
        out := machine.ApplyCommand(e.command.value);
      }
    }

    /** The waiter for the entry just applied, if there is one, is answered. */
    method Tell(out: SM.Outcome)
      requires Valid()
      modifies this`pending, this`answers
      ensures Valid() && Abs() == Told(old(Abs()), out)
    {
      hide D.Disk.Valid, Hear, Distinct, Named;
      if applied in pending {
        var w := pending[applied];
        var heard := ReadFor(w, out);
        answers := answers[w.ticket := Answered(heard)];
        pending := pending - {applied};
      }
    }

    /** What a waiter hears of an outcome: with the value it reads, if it reads one. */
    method ReadFor(w: Waiter, out: SM.Outcome) returns (heard: SM.Outcome)
      ensures heard == Hear(machine.Abs(), out, w.readKey)
    {
      heard := out;
      if w.readKey.Some? {
        var value, found := machine.Read(w.readKey.value);
        heard := out.(reply := out.reply.(value := value, found := found));
      }
    }

    /** maybeSnapshotLocked */
    method MaybeSnapshot()
      requires Valid() && !failed && (role == Leader ==> applied == store.state.commit)
      modifies this, store, store.wal
      ensures Valid()
      ensures !failed || old(plan) == [] ==> Abs() == NodeModel.MaybeSnapshot(cfg, old(Abs()))
      ensures old(role) != Leader ==> !failed && store.trail == old(store.trail)
      ensures var s := old(Abs()); Went(old(store.trail), OneWrite(s, NodeModel.MaybeSnapshot(cfg, s)))
      ensures old(plan) == [] ==> plan == []
    {
      hide Passes, St.Objection, HardState, Went;
      ghost var s := Abs();
      StaysBefore(NodeModel.MaybeSnapshot(cfg, s));
      if cfg.snapshotEvery == 0 || store.state.commit - store.state.base < cfg.snapshotEvery || role != Leader {
        return;
      }
      var lags := SomeoneLags();
      if lags {
        return;
      }
      Checkpoint();
    }

    /** The loop of maybeSnapshotLocked: whether another member is not known to hold all that is committed. */
    method SomeoneLags() returns (lags: bool)
      requires Valid()
      ensures lags <==> exists p :: p in cfg.members && p != cfg.self && MatchOf(Abs(), p) < Abs().commit
    {
      var k := 0;
      while k < |peers|
        invariant 0 <= k <= |peers|
        invariant forall j :: 0 <= j < k ==> peers[j] == cfg.self || MatchOf(Abs(), peers[j]) >= store.state.commit
      {
        var p := peers[k];
        var m := if p in matched then matched[p] else 0;
        if p != cfg.self && m < store.state.commit {
          assert p in cfg.members && MatchOf(Abs(), p) < store.state.commit;
          return true;
        }
        k := k + 1;
      }
      return false;
    }

    method Checkpoint()
      requires Valid() && !failed && role == Leader && applied == store.state.commit && store.state.base < store.state.commit
      modifies this, store, store.wal
      ensures Valid()
      ensures var s := old(Abs());
              var s' := if St.Objection(Disk(s), cfg.identity, CheckpointRecord(cfg, s)).Some? then Crashed(s)
                        else s.(base := s.commit, snapshot := s.machine);
              && (!failed || old(plan) == [] ==> Abs() == s')
              && Went(old(store.trail), OneWrite(s, s'))
      ensures old(plan) == [] ==> plan == []
    {
      hide Passes, St.Objection, HardState, Went, D.Disk.Valid;
      ghost var s, was := Abs(), store.trail;
      CrashKeeps(s);
      var ok, s' := SaveCheckpoint();
      if ok {
        Ends(was, OneWrite(s, s'));
      } else {
        Crash();
        Stops(was, s, s');
      }
    }

    method SaveCheckpoint() returns (ok: bool, ghost s': Node)
      requires Valid() && !failed && applied == store.state.commit && store.state.base < store.state.commit
      modifies this`plan, this`below, store, store.wal
      ensures Coherent() && (ok ==> !store.wal.broken)
      ensures var s := old(Abs());
              var objected := St.Objection(Disk(s), cfg.identity, CheckpointRecord(cfg, s)).Some?;
              && s' == (if objected then s else s.(base := s.commit, snapshot := s.machine))
              && Abs() == (if ok then s' else s)
              && (old(plan) == [] ==> ok == !objected)
              && (objected ==> !ok) && Shaped(s')
              && Passes(old(store.trail), store.trail, OneWrite(s, s'))
      ensures old(plan) == [] ==> plan == []
    {
      hide Passes, OneWrite, St.Objection, St.Accepted, D.Disk.Valid, Views, HardState, Distinct, Named, CheckpointRecord;
      ghost var s, was := Abs(), store.trail;
      s' := if St.Objection(Disk(s), cfg.identity, CheckpointRecord(cfg, s)).Some? then s else s.(base := s.commit, snapshot := s.machine);
      Starts();
      Viewed();
      CheckpointView(cfg, s, store.Held(), below);
      ok := WriteCheckpoint(CheckpointRecord(cfg, s));
      PassesOne(was, store.trail, s, s');
      if ok {
        below := s.log[..s.commit];
      }
    }

    /** The checkpoint record replaces the journal, unless the store objects or the write fails. */
    method WriteCheckpoint(ghost r: St.Record) returns (ok: bool)
      requires Valid() && !failed && store.state.base < store.state.commit && applied == store.state.commit
      requires r == D.CheckpointAt(store.state, cfg.identity, machine.Abs(), store.state.commit)
      modifies this`plan, store, store.wal
      ensures store.Valid() && (ok ==> !store.wal.broken)
      ensures var held, objected := old(store.Held()), St.Objection(old(store.state), cfg.identity, r).Some?;
              && (ok ==> !objected) && (old(plan) == [] ==> ok == !objected)
              && (r.from != 0 ==> held.state.base <= r.from <= held.state.base + |held.state.log|)
              && store.Held() == (if ok then St.Accepted(held, r) else held)
              && (store.trail == old(store.trail) || (!objected && store.trail == old(store.trail) + [St.Accepted(held, r)]))
      ensures old(plan) == [] ==> plan == []
    {
      hide St.Objection, St.Accepted, D.Disk.Valid, Views, Distinct, Named;
      var snapshot := machine.Snapshot();
      var fault := NextFault();
      var error := store.TakeCheckpoint(snapshot, store.state.commit, fault);
      ok := error.None?;
    }

    /** applyLocked */
    method Apply()
      requires Valid() && !failed
      modifies this, store, store.wal, machine
      ensures Valid()
      ensures !failed || old(plan) == [] ==> Abs() == NodeModel.ApplyLocked(cfg, old(Abs()))
      ensures old(role) != Leader ==> !failed && store.trail == old(store.trail)
      ensures var s := old(Abs()); Went(old(store.trail), OneWrite(NodeModel.ApplyAll(s), ApplyLocked(cfg, s)))
      ensures old(plan) == [] ==> plan == []
    {
      hide Went, HardState, OneWrite;
      AppliedToCommit(Abs());
      ApplyingKeeps(Abs());
      ApplyCommitted();
      MaybeSnapshot();
    }

    /** How many members are known to hold index `i`. */
    method CountHolders(i: nat) returns (count: nat)
      requires Valid()
      ensures count > |peers| / 2 <==> NodeModel.Replicated(cfg, Abs(), i)
    {
      count := 1;
      var k := 0;
      while k < |peers|
        invariant 0 <= k <= |peers|
        invariant count == 1 + |Holders(Abs(), cfg.self, peers[..k], i)|
      {
        HoldersNext(Abs(), cfg.self, peers, k, i);
        var m := if peers[k] in matched then matched[peers[k]] else 0;
        if peers[k] != cfg.self && m >= i {
          count := count + 1;
        }
        k := k + 1;
      }
      assert peers[..k] == peers;
      HoldersDecide(cfg, Abs(), peers, i);
    }

    /** Where advanceCommitLocked commits to. */
    method FindCommit() returns (target: Option<nat>)
      requires Valid()
      ensures target == CommitTarget(cfg, Abs(), Last(Abs()))
      ensures if target.Some? then Committable(cfg, Abs(), target.value) else NothingCommittable(cfg, Abs())
      ensures forall k: nat :: Committable(cfg, Abs(), k) ==> target.Some? && k <= target.value
    {
      hide D.Disk.Valid, NodeModel.Replicated, CommitTarget, Committable, NothingCommittable;
      TargetDecides(cfg, Abs());
      target := Search();
    }

    /** The loop of advanceCommitLocked: from the end of the log down to the commit index. */
    method Search() returns (target: Option<nat>)
      requires Valid()
      ensures target == CommitTarget(cfg, Abs(), Last(Abs()))
    {
      hide D.Disk.Valid, NodeModel.Replicated;
      var index := store.state.base + |store.state.log| - 1;
      while index > store.state.commit
        invariant store.state.commit <= index < |Abs().log|
        invariant CommitTarget(cfg, Abs(), index) == CommitTarget(cfg, Abs(), Last(Abs()))
      {
        var e := EntryAt(index);
        if e.term == store.state.term {
          var count := CountHolders(index);
          if count > |peers| / 2 {
            return Some(index);
          }
        }
        index := index - 1;
      }
      return None;
    }

    /** advanceCommitLocked */
    method AdvanceCommit()
      requires Valid()
      modifies this, store, store.wal, machine
      ensures Valid()
      ensures !failed || old(plan) == [] ==> Abs() == NodeModel.AdvanceCommit(cfg, old(Abs()))
      ensures if old(failed) then Abs() == old(Abs()) && store.trail == old(store.trail)
              else Went(old(store.trail), AdvanceMoments(cfg, old(Abs())))
      ensures !failed && !paused && role == Leader ==> NothingCommittable(cfg, Abs())
      ensures old(plan) == [] ==> plan == []
    {
      hide NodeModel.Persist, NodeModel.ApplyLocked, Went, CommitMoments;
      ghost var s := Abs();
      if !failed {
        Stays(s, NoWrite(s));
      }
      if role == Leader && Available(s) {
        CommitsAllItCan(cfg, s);
      }
      if role != Leader || paused || failed {
        return;
      }
      var target := FindCommit();
      if target.Some? {
        CommitAt(target.value);
      }
    }

    method CommitAt(index: nat)
      requires Valid() && !failed
      modifies this, store, store.wal, machine
      ensures Valid()
      ensures var s := old(Abs());
              var s1 := NodeModel.Persist(cfg, s, s.term, s.vote, index, 0, []);
              var s' := if s1.failed then s1 else NodeModel.ApplyLocked(cfg, s1);
              && (!failed || old(plan) == [] ==> Abs() == s')
              && Went(old(store.trail), CommitMoments(cfg, s, index))
      ensures old(plan) == [] ==> plan == []
    {
      hide NodeModel.Persist, NodeModel.ApplyLocked, Went, Passes, OneWrite;
      ghost var s, was := Abs(), store.trail;
      ghost var s1 := NodeModel.Persist(cfg, s, s.term, s.vote, index, 0, []);
      var ok := Persist(store.state.term, store.state.vote, index, 0, []);
      Widens(was, OneWrite(s, s1), CommitMoments(cfg, s, index));
      if ok {
        ghost var saved := store.trail;
        WentPasses(was, OneWrite(s, s1));
        Apply();
        GoesOn(was, saved, OneWrite(s, s1), OneWrite(NodeModel.ApplyAll(s1), NodeModel.ApplyLocked(cfg, s1)), CommitMoments(cfg, s, index));
      }
    }

    // ---- Elections ----

    /** Appends one entry of the leader's own term. */
    method AppendOwn(command: Option<SM.Command>) returns (ok: bool)
      requires Valid() && !failed
      modifies this, store, store.wal
      ensures Valid() && ok == !failed
      ensures !failed || old(plan) == [] ==> Abs() == LeaderAppend(cfg, old(Abs()), command)
      ensures var s := old(Abs()); Went(old(store.trail), OneWrite(s, LeaderAppend(cfg, s, command)))
      ensures old(plan) == [] ==> plan == []
    {
      hide NodeModel.Persist, Passes, OneWrite, HardState, Went, D.Disk.Valid;
      var last := store.state.base + |store.state.log| - 1;
      var entry := Entry(last + 1, store.state.term, command);
      ok := Persist(store.state.term, store.state.vote, store.state.commit, last + 1, [entry]);
    }

    method Crown()
      requires Valid() && !failed
      modifies this`role, this`leader, this`next, this`matched
      ensures Valid() && Abs() == Crowned(cfg, old(Abs()))
    {
      role := Leader;
      leader := Some(cfg.self);
      ResetProgress(store.state.base + |store.state.log| - 1);
    }

    /** becomeLeaderLocked */
    method BecomeLeader()
      requires Valid() && !failed
      modifies this, store, store.wal, machine
      ensures Valid()
      ensures !failed || old(plan) == [] ==> Abs() == NodeModel.BecomeLeader(cfg, old(Abs()))
      ensures Went(old(store.trail), LeadMoments(cfg, old(Abs())))
      ensures old(plan) == [] ==> plan == []
    {
      hide NodeModel.AdvanceCommit, LeaderAppend, Crowned, AdvanceMoments, OneWrite, Went, Passes;
      ghost var s, was := Abs(), store.trail;
      Crown();
      ghost var c := Abs();
      var ok := AppendOwn(None);
      ghost var first := OneWrite(c, LeaderAppend(cfg, c, None));
      Widens(was, first, LeadMoments(cfg, s));
      if !ok {
        return;
      }
      ghost var saved := store.trail;
      WentPasses(was, first);
      CountOwn();
      ghost var s2 := Abs();
      AdvanceCommit();
      GoesOn(was, saved, first, AdvanceMoments(cfg, s2), LeadMoments(cfg, s));
    }

    /** The leader holds its own log to the end. */
    method CountOwn()
      requires Valid()
      modifies this`matched
      ensures Valid()
      ensures var s := old(Abs()); Abs() == s.(matched := s.matched[cfg.self := Last(s)])
    {
      matched := matched[cfg.self := store.state.base + |store.state.log| - 1];
    }

    /** Every peer's next and match, when a node becomes leader; the maps hold nothing but peers. */
    method ResetProgress(last: nat)
      requires cfg.members == Named(peers)
      modifies this`next, this`matched
      ensures next == Constant<Id, nat>(cfg.members, last + 1) && matched == Constant<Id, nat>(cfg.members, 0)
    {
      var k := 0;
      next, matched := map[], map[];
      while k < |peers|
        invariant 0 <= k <= |peers|
        invariant next == Constant<Id, nat>(Named(peers[..k]), last + 1) && matched == Constant<Id, nat>(Named(peers[..k]), 0)
      {
        NamedNext(peers, k);
        ConstantNext(Named(peers[..k]), peers[k], last + 1);
        ConstantNext(Named(peers[..k]), peers[k], 0);
        next := next[peers[k] := last + 1];
        matched := matched[peers[k] := 0];
        k := k + 1;
      }
      assert peers[..k] == peers;
    }

    /** startElectionLocked up to counting its own vote. */
    method Campaign() returns (ok: bool)
      requires Valid() && !failed
      modifies this, store, store.wal
      ensures Valid() && ok == !failed
      ensures !failed || old(plan) == [] ==> Abs() == Campaigning(cfg, old(Abs()))
      ensures var s := old(Abs()); Went(old(store.trail), OneWrite(s, Campaigning(cfg, s)))
      ensures old(plan) == [] ==> plan == []
    {
      hide NodeModel.Persist, Passes, Went, HardState, D.Disk.Valid;
      ghost var s, was := Abs(), store.trail;
      CampaignKeeps(cfg, s);
      ok := Persist(store.state.term + 1, Some(cfg.self), store.state.commit, 0, []);
      if ok {
        WentPasses(was, OneWrite(s, Campaigning(cfg, s)));
        role := Candidate;
        leader := None;
        votes := {cfg.self};
        Ends(was, OneWrite(s, Campaigning(cfg, s)));
      }
    }

    /** startElectionLocked, returning the request it broadcasts if it did not win at once. */
    method StartElection() returns (req: Option<VoteRequest>)
      requires Valid() && !failed
      modifies this, store, store.wal, machine
      ensures Valid()
      ensures !failed || old(plan) == [] ==> (Abs(), req) == NodeModel.StartElection(cfg, old(Abs()))
      ensures Went(old(store.trail), ElectionMoments(cfg, old(Abs())))
      ensures old(plan) == [] ==> plan == []
    {
      hide Campaigning, NodeModel.BecomeLeader, ElectionMoments, LeadMoments, OneWrite, Passes, Went, D.Disk.Valid;
      ghost var s, was := Abs(), store.trail;
      ghost var s1 := Campaigning(cfg, s);
      ElectionGoes(cfg, s);
      req := None;
      var ok := Campaign();
      ghost var saved := store.trail;
      WentPasses(was, OneWrite(s, s1));
      Widens(was, OneWrite(s, s1), ElectionMoments(cfg, s));
      if !ok {
        return;
      }
      DistinctCount(peers);
      if |votes| > |peers| / 2 {
        BecomeLeader();
        GoesOn(was, saved, OneWrite(s, s1), LeadMoments(cfg, s1), ElectionMoments(cfg, s));
        return;
      }
      var last := store.state.base + |store.state.log| - 1;
      var e := EntryAt(last);
      req := Some(VoteRequest(cfg.cluster, store.state.term, cfg.self, last, e.term));
    }

    /** Tick, when the election timer has expired. */
    method Tick() returns (req: Option<VoteRequest>)
      requires Valid()
      modifies this, store, store.wal, machine
      ensures Valid()
      ensures !failed || old(plan) == [] ==> (Abs(), req) == NodeModel.Timeout(cfg, old(Abs()))
      ensures if old(failed) then Abs() == old(Abs()) && store.trail == old(store.trail)
              else Went(old(store.trail), TimeoutMoments(cfg, old(Abs())))
      ensures old(plan) == [] ==> plan == []
    {
      hide ElectionMoments, Went;
      req := None;
      if !failed {
        Stays(Abs(), NoWrite(Abs()));
      }
      if paused || failed || role == Leader {
        return;
      }
      req := StartElection();
    }

    /** RequestVote */
    method RequestVote(req: VoteRequest) returns (resp: VoteResponse, error: RpcError)
      requires Valid()
      modifies this, store, store.wal
      ensures Valid()
      ensures !failed || old(plan) == [] ==> (Abs(), resp, error) == HandleVote(cfg, old(Abs()), req)
      ensures if old(failed) then Abs() == old(Abs()) && store.trail == old(store.trail)
              else Went(old(store.trail), VoteMoments(cfg, old(Abs()), req))
      ensures old(plan) == [] ==> plan == []
      // a vote is announced only once it is on disk
      ensures failed ==> !resp.granted && error == NodeUnavailable
      ensures resp.granted ==> OnDisk().state.term == req.term && OnDisk().state.vote == Some(req.candidate)
    {
      hide NodeModel.StepDown, NodeModel.DecideVote, OneWrite, HardState, Went, Passes, D.Disk.Valid;
      ghost var s, was := Abs(), store.trail;
      if !failed {
        VoteStarts(cfg, s, req);
        Stays(s, VoteMoments(cfg, s, req));
      }
      resp, error := VoteResponse(store.state.term, false), NoError;
      if paused || failed {
        return resp, NodeUnavailable;
      }
      if !(req.candidate in cfg.members && req.candidate != cfg.self && req.cluster == cfg.cluster) {
        return resp, UnknownPeer;
      }
      if req.term < store.state.term {
        return;
      }
      StaysBefore(s);
      if req.term > store.state.term {
        StepsDown(cfg, s, req.term, None);
        var ok := StepDown(req.term, None);
        WentPasses(was, StepDownMoments(cfg, s, req.term, None));
        Widens(was, StepDownMoments(cfg, s, req.term, None), VoteMoments(cfg, s, req));
        resp := VoteResponse(store.state.term, false);
        if !ok {
          return resp, NodeUnavailable;
        }
      }
      ghost var s1, saved := Abs(), store.trail;
      resp, error := DecideVote(req);
      GoesOn(was, saved, OneWrite(s, s1), OneWrite(s1, NodeModel.DecideVote(cfg, s1, req).0), VoteMoments(cfg, s, req));
    }

    method DecideVote(req: VoteRequest) returns (resp: VoteResponse, error: RpcError)
      requires Valid() && !failed && req.term == store.state.term
      modifies this, store, store.wal
      ensures Valid()
      ensures !failed || old(plan) == [] ==> (Abs(), resp, error) == NodeModel.DecideVote(cfg, old(Abs()), req)
      ensures var s := old(Abs()); Went(old(store.trail), OneWrite(s, NodeModel.DecideVote(cfg, s, req).0))
      ensures old(plan) == [] ==> plan == []
      ensures failed ==> !resp.granted && error == NodeUnavailable
      ensures resp.granted ==> OnDisk().state.term == req.term && OnDisk().state.vote == Some(req.candidate)
    {
      hide NodeModel.Persist, Passes, HardState, Went, OneWrite, D.Disk.Valid;
      StaysBefore(NodeModel.DecideVote(cfg, Abs(), req).0);
      var last := EntryAt(store.state.base + |store.state.log| - 1);
      var upToDate := req.lastLogTerm > last.term ||
                      (req.lastLogTerm == last.term && req.lastLogIndex >= store.state.base + |store.state.log| - 1);
      if upToDate && (store.state.vote == None || store.state.vote == Some(req.candidate)) {
        if store.state.vote == None {
          var ok := SaveVote(req.candidate);
          if !ok {
            return VoteResponse(store.state.term, false), NodeUnavailable;
          }
        }
        Synced();
        return VoteResponse(store.state.term, true), NoError;
      }
      return VoteResponse(store.state.term, false), NoError;
    }

    method SaveVote(candidate: Id) returns (ok: bool)
      requires Valid() && !failed
      modifies this, store, store.wal
      ensures Valid() && ok == !failed
      ensures var s := old(Abs());
              var s' := NodeModel.Persist(cfg, s, s.term, Some(candidate), s.commit, 0, []);
              && (ok ==> Abs() == s.(vote := Some(candidate)))
              && (!failed || old(plan) == [] ==> Abs() == s')
              && Went(old(store.trail), OneWrite(s, s'))
      ensures old(plan) == [] ==> plan == []
    {
      hide NodeModel.Persist, Passes, HardState, Went, OneWrite, D.Disk.Valid;
      HardStateOnly(cfg, Abs(), store.state.term, Some(candidate), store.state.commit);
      ok := Persist(store.state.term, Some(candidate), store.state.commit, 0, []);
    }

    /** voteResponseLocked, for a response that arrived without a transport error. */
    method AcceptVote(from: Id, req: VoteRequest, resp: VoteResponse)
      requires Valid()
      modifies this, store, store.wal, machine
      ensures Valid()
      ensures !failed || old(plan) == [] ==> Abs() == HandleVoteResponse(cfg, old(Abs()), from, req, resp)
      ensures if old(failed) then Abs() == old(Abs()) && store.trail == old(store.trail)
              else Went(old(store.trail), VoteReplyMoments(cfg, old(Abs()), from, req, resp))
      ensures old(plan) == [] ==> plan == []
    {
      hide NodeModel.StepDown, NodeModel.BecomeLeader, StepDownMoments, LeadMoments, HardState, Went;
      ghost var s, was := Abs(), store.trail;
      if !failed {
        Stays(s, NoWrite(s));
        WentPasses(was, NoWrite(s));
      }
      if paused || failed {
        return;
      }
      if resp.term > store.state.term {
        var _ := StepDown(resp.term, None);
        return;
      }
      if role != Candidate || store.state.term != req.term || resp.term != req.term {
        return;
      }
      if resp.granted {
        votes := votes + {from};
        DistinctCount(peers);
        if |votes| > |peers| / 2 {
          BecomeLeader();
        } else {
          Ends(was, NoWrite(s));
        }
      }
    }

    // ---- Replication ----

    /** AppendEntries */
    method AppendEntries(req: AppendRequest) returns (resp: AppendResponse, error: RpcError)
      requires Valid()
      modifies this, store, store.wal, machine
      ensures Valid()
      ensures !failed || old(plan) == [] ==> (Abs(), resp, error) == HandleAppend(cfg, old(Abs()), req)
      ensures if old(failed) then Abs() == old(Abs()) && store.trail == old(store.trail)
              else Went(old(store.trail), AppendMoments(cfg, old(Abs()), req))
      ensures failed ==> !resp.success && error == NodeUnavailable
      ensures old(plan) == [] ==> plan == []
    {
      hide NodeModel.StepDown, Consistent, OneWrite, HardState, Went, Passes, D.Disk.Valid;
      ghost var s, was := Abs(), store.trail;
      if !failed {
        AppendStarts(cfg, s, req);
        Stays(s, AppendMoments(cfg, s, req));
      }
      error := NoError;
      resp := Refuse();
      if paused || failed {
        return resp, NodeUnavailable;
      }
      if !(req.leader in cfg.members && req.leader != cfg.self && req.cluster == cfg.cluster) {
        return resp, UnknownPeer;
      }
      if req.term < store.state.term {
        return;
      }
      StepsDown(cfg, s, req.term, Some(req.leader));
      var ok := StepDown(req.term, Some(req.leader));
      ghost var s1, saved := Abs(), store.trail;
      WentPasses(was, StepDownMoments(cfg, s, req.term, Some(req.leader)));
      Widens(was, StepDownMoments(cfg, s, req.term, Some(req.leader)), AppendMoments(cfg, s, req));
      if !ok {
        resp := Refuse();
        return resp, NodeUnavailable;
      }
      resp, error := CheckPrevious(req);
      GoesOn(was, saved, OneWrite(s, s1), OneWrite(s1, Consistent(cfg, s1, req).0), AppendMoments(cfg, s, req));
    }

    /** The response that accepts nothing. */
    method Refuse() returns (resp: AppendResponse)
      requires Valid()
      ensures resp == Refusal(Abs())
    {
      resp := AppendResponse(store.state.term, false, 0, store.state.base + |store.state.log|);
    }

    /** The consistency check at the request's previous entry. */
    method CheckPrevious(req: AppendRequest) returns (resp: AppendResponse, error: RpcError)
      requires Valid() && !failed && role != Leader
      modifies this, store, store.wal, machine
      ensures Valid()
      ensures !failed || old(plan) == [] ==> (Abs(), resp, error) == Consistent(cfg, old(Abs()), req)
      ensures var s := old(Abs()); Went(old(store.trail), OneWrite(s, Consistent(cfg, s, req).0))
      ensures failed ==> !resp.success && error == NodeUnavailable
      ensures old(plan) == [] ==> plan == []
    {
      hide MergeEntries, HardState, Went;
      StaysBefore(Consistent(cfg, Abs(), req).0);
      error := NoError;
      resp := Refuse();
      if req.prevLogIndex > store.state.base + |store.state.log| - 1 {
        return;
      }
      if req.prevLogIndex < store.state.base {
        return resp.(conflictIndex := store.state.base + 1), NoError;
      }
      var previous := EntryAt(req.prevLogIndex);
      if previous.term != req.prevLogTerm {
        var conflict := FindConflict(req.prevLogIndex);
        return resp.(conflictIndex := conflict), NoError;
      }
      resp, error := Merge(req);
    }

    /** Back to the first entry of the conflicting term that is still in the log. */
    method FindConflict(prev: nat) returns (conflict: nat)
      requires Valid() && store.state.base <= prev < |Abs().log|
      ensures conflict == ConflictStart(Abs().log, Abs().base, prev, Abs().log[prev].term)
    {
      conflict := prev;
      var term := store.state.log[prev - store.state.base].term;
      while conflict > store.state.base && store.state.log[conflict - 1 - store.state.base].term == term
        invariant store.state.base <= conflict <= prev
        invariant ConflictStart(Abs().log, Abs().base, prev, term) == ConflictStart(Abs().log, Abs().base, conflict, term)
      {
        conflict := conflict - 1;
      }
    }

    /** The loop over the request's entries. */
    method Scan(req: AppendRequest) returns (scan: NodeModel.Scan)
      requires Valid()
      ensures scan == ScanEntries(Abs(), req, 0)
    {
      var i := 0;
      while i < |req.entries|
        invariant 0 <= i <= |req.entries|
        invariant ScanEntries(Abs(), req, i) == ScanEntries(Abs(), req, 0)
      {
        var e := req.entries[i];
        if e.index != req.prevLogIndex + 1 + i || e.term > req.term || e.term == 0 {
          return Bad(Malformed);
        }
        if e.index > store.state.base {
          if e.index > store.state.base + |store.state.log| - 1 {
            return Differ(i);
          }
          var mine := EntryAt(e.index);
          if mine.term != e.term {
            return Differ(i);
          }
          if e != mine {
            return Bad(DifferentCommand);
          }
        }
        i := i + 1;
      }
      return Same;
    }

    /** What the scan means: an error, or what to save. */
    method Decide(req: AppendRequest) returns (decision: Decision)
      requires Valid()
      ensures decision == NodeModel.Decide(Abs(), req)
    {
      var scan := Scan(req);
      if scan.Bad? {
        return Reject(scan.error);
      }
      var from, entries := 0, [];
      if scan.Differ? {
        from, entries := req.prevLogIndex + 1 + scan.at, req.entries[scan.at..];
      }
      if from != 0 && from <= store.state.commit {
        return Reject(OverwriteCommitted);
      }
      return Save(from, entries);
    }

    /** AppendEntries after the consistency check. */
    method Merge(req: AppendRequest) returns (resp: AppendResponse, error: RpcError)
      requires Valid() && !failed && role != Leader
      modifies this, store, store.wal, machine
      ensures Valid()
      ensures !failed || old(plan) == [] ==> (Abs(), resp, error) == MergeEntries(cfg, old(Abs()), req)
      ensures var s := old(Abs()); Went(old(store.trail), OneWrite(s, MergeEntries(cfg, s, req).0))
      ensures failed ==> !resp.success && error == NodeUnavailable
      ensures old(plan) == [] ==> plan == []
    {
      hide Merged, MergeEntries, NodeModel.Decide, HardState, Passes, Went;
      ghost var s := Abs();
      StaysBefore(MergeEntries(cfg, s, req).0);
      var decision := Decide(req);
      assert Abs() == s;
      if decision.Reject? {
        MergeByReject(cfg, s, req, decision.error);
        error := decision.error;
        resp := Refuse();
        assert Abs() == s;
        return;
      }
      var matched := req.prevLogIndex + |req.entries|;
      var commit := store.state.commit;
      if req.leaderCommit > commit {
        commit := if req.leaderCommit < matched then req.leaderCommit else matched;
        commit := if commit > store.state.commit then commit else store.state.commit;
      }
      MergeBySave(cfg, s, req, commit, decision.from, decision.entries);
      resp, error := SaveAndApply(commit, decision.from, decision.entries, matched, MergeEntries(cfg, s, req));
    }

    method SaveAndApply(commit: nat, from: nat, entries: seq<Entry>, matched: nat, ghost goal: (Node, AppendResponse, RpcError))
      returns (resp: AppendResponse, error: RpcError)
      requires Valid() && !failed && role != Leader && goal == Merged(cfg, Abs(), commit, from, entries, matched)
      modifies this, store, store.wal, machine
      ensures Valid()
      ensures !failed || old(plan) == [] ==> (Abs(), resp, error) == goal
      ensures Shaped(goal.0) && Went(old(store.trail), OneWrite(old(Abs()), goal.0))
      ensures failed ==> !resp.success && error == NodeUnavailable
      ensures old(plan) == [] ==> plan == []
    {
      hide NodeModel.Persist, NodeModel.ApplyLocked, HardState, Passes, Went, OneWrite;
      ghost var s, was := Abs(), store.trail;
      StaysBefore(goal.0);
      if from != 0 || commit != store.state.commit {
        MergedKeeps(cfg, s, commit, from, entries, matched);
        SavingKeepsRole(cfg, s, s.term, s.vote, commit, from, entries);
        var ok := Persist(store.state.term, store.state.vote, commit, from, entries);
        if !ok {
          resp := Refuse();
          return resp, NodeUnavailable;
        }
        WentPasses(was, OneWrite(s, goal.0));
        Apply();
        Ends(was, OneWrite(s, goal.0));
      }
      return AppendResponse(store.state.term, true, matched, 0), NoError;
    }

    /** prepareAppendLocked.  The batch loop looks at entries from `next` on before `next` is clamped to the
        base; below the base that is an index out of range, and there is no request. */
    method PrepareAppend(p: Id) returns (req: Option<AppendRequest>)
      requires Valid()
      ensures req == Prepare(cfg, Abs(), p)
    {
      ghost var s := Abs();
      var n := NextFor(p);
      if n < store.state.base {
        return None;
      }
      var end := Batch(n);
      var prev := n - 1;
      if prev < store.state.base {
        prev := store.state.base;
      }
      var previous, entries := Window(prev, end);
      req := Some(AppendRequest(cfg.cluster, store.state.term, cfg.self, prev, previous.term, entries, store.state.commit));
      assert Abs() == s;
      PreparedIs(cfg, s, p, n, end, prev, entries, previous);
    }

    method NextFor(p: Id) returns (n: nat)
      requires Valid()
      ensures n == NextIndex(Abs(), p)
    {
      n := if p in next && next[p] > 1 then next[p] else 1;
      if n > store.state.base + |store.state.log| {
        n := store.state.base + |store.state.log|;
      }
    }

    /** The entry at `prev` and those behind it, up to `end`. */
    method Window(prev: nat, end: nat) returns (previous: Entry, entries: seq<Entry>)
      requires Valid() && Abs().base <= prev < |Abs().log| && end <= |Abs().log|
      ensures previous == Abs().log[prev] && entries == if prev + 1 <= end then Abs().log[prev + 1..end] else []
    {
      hide D.Disk.Valid;
      ghost var log := below + store.state.log;
      previous := store.state.log[prev - store.state.base];
      entries := [];
      var i := prev + 1;
      while i < end
        invariant prev + 1 <= i && (i <= end || i == prev + 1)
        invariant entries == if i <= end then log[prev + 1..i] else []
      {
        SliceGrows(log, prev + 1, i);
        entries := entries + [store.state.log[i - store.state.base]];
        i := i + 1;
      }
    }

    /** The batch loop, by count and by size. */
    method Batch(n: nat) returns (end: nat)
      requires Valid() && Abs().base <= n <= |Abs().log|
      ensures end == BatchEnd(Abs().log, n, n, 1024)
    {
      hide D.Disk.Valid;
      end := n;
      var bytes: nat := 1024;
      while end < store.state.base + |store.state.log| && end - n < BATCH_ENTRIES
        invariant n <= end <= |Abs().log|
        invariant BatchEnd(Abs().log, n, n, 1024) == BatchEnd(Abs().log, n, end, bytes)
      {
        var e := EntryAt(end);
        var size := 1024;
        if e.command.Some? {
          var c := e.command.value;
          size := size + 6 * (|c.key| + |c.value| + |c.expected| + |c.clientId|);
        }
        if bytes + size > BATCH_BYTES {
          break;
        }
        bytes := bytes + size;
        end := end + 1;
      }
    }

    /** acceptAppendLocked, for a response that arrived without a transport error; tells whether to go on
        sending. */
    method AcceptAppend(from: Id, req: AppendRequest, resp: AppendResponse) returns (more: bool)
      requires Valid() && applied == store.state.commit
      modifies this, store, store.wal, machine
      ensures Valid()
      ensures !failed || old(plan) == [] ==> Abs() == HandleAppendResponse(cfg, old(Abs()), from, req, resp)
      ensures if old(failed) then Abs() == old(Abs()) && store.trail == old(store.trail)
              else Went(old(store.trail), AppendReplyMoments(cfg, old(Abs()), from, req, resp))
      ensures old(plan) == [] ==> plan == []
      ensures var s := old(Abs());
              more <==>
              && Current(s, req, resp)
              && (if resp.success then NextOf(Abs(), from) <= Last(Abs()) else req.prevLogIndex > 0)
    {
      hide HandleAppendResponse, NodeModel.StepDown, BackedOff, HardState, Went, StepDownMoments, AdvanceMoments, NodeModel.AdvanceCommit, OneWrite;
      ghost var s, was := Abs(), store.trail;
      if !failed {
        Stays(s, NoWrite(s));
        WentPasses(was, NoWrite(s));
      }
      if paused || failed {
        ResponseIgnored(cfg, s, from, req, resp);
        return false;
      }
      if resp.term > store.state.term {
        ResponseDeposes(cfg, s, from, req, resp);
        var _ := StepDown(resp.term, None);
        return false;
      }
      if role != Leader || store.state.term != req.term || resp.term != req.term {
        ResponseIgnored(cfg, s, from, req, resp);
        return false;
      }
      if resp.success {
        CountMatch(from, req, resp);
        return (if from in next then next[from] else 0) <= store.state.base + |store.state.log| - 1;
      }
      ResponseBacksOff(cfg, s, from, req, resp);
      more := BackOff(from, req, resp);
      Ends(was, NoWrite(s));
    }

    method CountMatch(from: Id, req: AppendRequest, resp: AppendResponse)
      requires Valid() && applied == store.state.commit && Current(Abs(), req, resp) && resp.success
      modifies this, store, store.wal, machine
      ensures Valid()
      ensures !failed || old(plan) == [] ==> Abs() == HandleAppendResponse(cfg, old(Abs()), from, req, resp)
      ensures Went(old(store.trail), AppendReplyMoments(cfg, old(Abs()), from, req, resp))
      ensures old(plan) == [] ==> plan == []
    {
      hide NodeModel.AdvanceCommit, NodeModel.MaybeSnapshot, HandleAppendResponse, AppendReplyMoments, AdvanceMoments, OneWrite, Passes, Went;
      ghost var s := Abs();
      ghost var s0 := Counted(s, from, req.prevLogIndex + |req.entries|);
      Count(from, req.prevLogIndex + |req.entries|, s0);
      ResponseCounts(cfg, s, s0, from, req, resp);
      AdvanceAndSnapshot(s0);
    }

    method AdvanceAndSnapshot(ghost s: Node)
      requires Valid() && !failed && s == Abs() && applied == store.state.commit
      modifies this, store, store.wal, machine
      ensures Valid()
      ensures var s1 := NodeModel.AdvanceCommit(cfg, s);
              && (s1.role == Leader ==> s1.applied == s1.commit)
              && (!failed || old(plan) == [] ==> Abs() == NodeModel.MaybeSnapshot(cfg, s1))
              && Went(old(store.trail), AdvanceMoments(cfg, s) + OneWrite(s1, NodeModel.MaybeSnapshot(cfg, s1)))
      ensures old(plan) == [] ==> plan == []
    {
      hide NodeModel.AdvanceCommit, NodeModel.MaybeSnapshot, AdvanceMoments, OneWrite, Passes, Went;
      ghost var was, s1 := store.trail, NodeModel.AdvanceCommit(cfg, s);
      AdvanceCommitSettles(cfg, s);
      ghost var all := AdvanceMoments(cfg, s) + OneWrite(s1, NodeModel.MaybeSnapshot(cfg, s1));
      AdvanceCommit();
      Widens(was, AdvanceMoments(cfg, s), all);
      if !failed {
        ghost var saved := store.trail;
        WentPasses(was, AdvanceMoments(cfg, s));
        MaybeSnapshot();
        GoesOn(was, saved, AdvanceMoments(cfg, s), OneWrite(s1, NodeModel.MaybeSnapshot(cfg, s1)), all);
      } else {
        FailedStays(cfg, Abs());
      }
    }

    method BackOff(from: Id, req: AppendRequest, resp: AppendResponse) returns (more: bool)
      requires Valid()
      modifies this`next
      ensures Valid() && Abs() == BackedOff(old(Abs()), from, req, resp) && (more <==> req.prevLogIndex > 0)
    {
      if req.prevLogIndex == 0 {
        return false;
      }
      var least := if req.prevLogIndex < resp.conflictIndex then req.prevLogIndex else resp.conflictIndex;
      next := next[from := if least > 1 then least else 1];
      return true;
    }

    method Count(from: Id, index: nat, ghost goal: Node)
      requires Valid() && goal == Counted(Abs(), from, index)
      modifies this`matched, this`next
      ensures Valid() && Abs() == goal && applied == old(applied)
    {
      var known := if from in matched then matched[from] else 0;
      var m := if known > index then known else index;
      matched := matched[from := m];
      next := next[from := m + 1];
    }

    // ---- Clients ----

    /** submitLocked */
    method Submit(command: Option<SM.Command>, readKey: Option<SM.Text>, ticket: nat)
      returns (index: Option<nat>, error: Option<SubmitError>)
      requires Valid()
      modifies this, store, store.wal, machine
      ensures Valid()
      ensures old(plan) == [] ==> plan == []
      ensures if old(failed) then Abs() == old(Abs()) && store.trail == old(store.trail)
              else Went(old(store.trail), SubmitMoments(cfg, old(Abs()), command, readKey, ticket))
      ensures !failed || old(plan) == [] ==>
                (Abs(), index, error) == NodeModel.Submit(cfg, old(Abs()), command, readKey, ticket)
    {
      hide ProposalMoments, LeaderAppend, NodeModel.AdvanceCommit, HardState, Went;
      ghost var s := Abs();
      if !failed {
        Stays(s, NoWrite(s));
      }
      index := None;
      if paused || failed {
        return index, Some(SubmitUnavailable);
      }
      if role != Leader {
        return index, Some(SubmitNotLeader(leader));
      }
      if command.Some? && !SM.ValidCommand(command.value) {
        return index, Some(SubmitInvalid);
      }
      if store.state.base + |store.state.log| - 1 - store.state.commit >= 256 {
        return index, Some(SubmitNoQuorum);
      }
      index, error := Propose(command, readKey, ticket);
    }

    method Propose(command: Option<SM.Command>, readKey: Option<SM.Text>, ticket: nat)
      returns (index: Option<nat>, error: Option<SubmitError>)
      requires Valid() && !failed
      modifies this, store, store.wal, machine
      ensures Valid()
      ensures old(plan) == [] ==> plan == []
      ensures Went(old(store.trail), ProposalMoments(cfg, old(Abs()), command, readKey, ticket))
      ensures !failed || old(plan) == [] ==>
                var s1 := LeaderAppend(cfg, old(Abs()), command);
                (Abs(), index, error) ==
                if s1.failed then (s1, None, Some(SubmitUnavailable))
                else (NodeModel.AdvanceCommit(cfg, Registered(cfg, s1, Waiter(ticket, readKey))), Some(Last(s1)), None)
    {
      hide NodeModel.AdvanceCommit, LeaderAppend, Registered, ProposalMoments, AdvanceMoments, OneWrite, Passes, Went, D.Disk.Valid;
      ghost var s, was := Abs(), store.trail;
      ghost var s1 := LeaderAppend(cfg, s, command);
      ProposalGoes(cfg, s, command, readKey, ticket);
      var ok := AppendOwn(command);
      Widens(was, OneWrite(s, s1), ProposalMoments(cfg, s, command, readKey, ticket));
      if !ok {
        return None, Some(SubmitUnavailable);
      }
      WentPasses(was, OneWrite(s, s1));
      index, error := Some(store.state.base + |store.state.log| - 1), None;
      Await(Waiter(ticket, readKey));
      ghost var s2, saved := Abs(), store.trail;
      AdvanceCommit();
      GoesOn(was, saved, OneWrite(s, s1), AdvanceMoments(cfg, s2), ProposalMoments(cfg, s, command, readKey, ticket));
    }

    method Await(w: Waiter)
      requires Valid() && !failed
      modifies this`pending, this`matched
      ensures Valid() && Abs() == Registered(cfg, old(Abs()), w)
    {
      var last := store.state.base + |store.state.log| - 1;
      pending := pending[last := w];
      matched := matched[cfg.self := last];
    }

    method SetPaused(pause: bool)
      requires Valid()
      modifies this`paused, this`pending, this`answers
      ensures Valid() && Abs() == Paused(old(Abs()), pause)
      ensures pause ==> T.TellsAll(old(Abs()), Abs(), Unavailable)
    {
      T.FailPendingTells(Abs(), Abs().(paused := true), Unavailable);
      hide T.TellsAll;
      paused := pause;
      if pause {
        FailPending(Unavailable);
      }
    }

    /** Ticket.Cancel */
    method Cancel(index: nat, ticket: nat)
      requires Valid()
      modifies this`pending
      ensures Valid() && Abs() == Cancelled(old(Abs()), index, ticket)
    {
      if index in pending && pending[index].ticket == ticket {
        pending := pending - {index};
      }
    }
  }

  // ---- Restart ----

  lemma HardStateViewed(s: Node, held: St.Stored)
    requires Shaped(s) && HardState(s) == held
    ensures Views(s, held, s.log[..s.base])
  {
    assert s.log == s.log[..s.base] + s.log[s.base..];
  }

  /** The recovery part of OpenWithRuntime: the machine starts from the checkpoint, and the committed part of
      the log above it is applied.  `s` is the node whose hard state the journal holds.  Nothing is written, so
      nothing fails. */
  method Open(cfg: Config, peers: seq<Id>, store: D.Disk, plan: seq<D.Fault>, ghost s: Node)
    returns (server: Option<Server>)
    requires store.Valid() && !store.wal.broken && store.identity == cfg.identity
    requires Distinct(peers) && cfg.self in peers && cfg.members == Named(peers)
    requires Shaped(s) && HardState(s) == store.Held() && SM.ValidState(s.snapshot)
    requires s.base == 0 ==> s.snapshot == SM.EMPTY_STATE
    modifies store, store.wal
    ensures server.Some? && store.trail == old(store.trail)
    ensures fresh(server.value) && fresh(server.value.machine) && server.value.store == store
    ensures server.value.Valid() && !server.value.failed && server.value.Abs() == Restart(cfg, s)
  {
    ghost var below := s.log[..s.base];
    HardStateViewed(s, store.Held());
    var machine := new SM.Machine();
    if store.state.base != 0 {
      var ok := machine.Restore(store.snapshot);
      if !ok {
        return None;
      }
    }
    var node := new Server(cfg, peers, store, machine, plan, below);
    assert node.Abs() == Reopened(s) by {
      ViewDetermines(node.Abs(), Reopened(s), store.Held(), below);
    }
    node.Apply();
    if node.failed {
      return None;
    }
    return Some(node);
  }
}
