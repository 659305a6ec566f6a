/** What clients that wait on a node are told, and that nobody who waits is forgotten. */
module Tickets {
  import opened Wrappers
  import opened RaftTypes
  import opened NodeModel
  import SM = StateMachine
  import St = Store

  /** Every waiter of `s` is told `a`, nobody else hears anything, and nobody waits any longer. */
  ghost predicate TellsAll(s: Node, s': Node, a: Answer) {
    && s'.pending == map[]
    && (forall i {:trigger s.pending[i]} :: i in s.pending ==>
          s.pending[i].ticket in s'.answers && s'.answers[s.pending[i].ticket] == a)
    && (forall t :: !Waits(s, t) ==> (t in s'.answers <==> t in s.answers) && (t in s.answers ==> s'.answers[t] == s.answers[t]))
  }

  /** Someone waits under this ticket. */
  ghost predicate Waits(s: Node, t: nat) {
    exists i :: i in s.pending && s.pending[i].ticket == t
  }

  lemma WaitsIsTicket(s: Node, t: nat)
    ensures Waits(s, t) <==> t in Tickets(s.pending)
  {
    if t in Tickets(s.pending) {
      var w :| w in s.pending.Values && w.ticket == t;
      var i :| i in s.pending && s.pending[i] == w;
    }
    forall i | i in s.pending && s.pending[i].ticket == t ensures t in Tickets(s.pending) {
      assert s.pending[i] in s.pending.Values;
    }
  }

  /** Whatever else of the node `s` has changed when its waiters are failed. */
  lemma FailPendingTells(s: Node, now: Node, a: Answer)
    requires now.pending == s.pending && now.answers == s.answers
    ensures TellsAll(s, FailPending(now, a), a) && FailPending(now, a).failed == now.failed
  {
    forall i | i in s.pending ensures s.pending[i].ticket in Tickets(s.pending) {
      assert s.pending[i] in s.pending.Values;
    }
    forall t ensures Waits(s, t) <==> t in Tickets(s.pending) {
      WaitsIsTicket(s, t);
    }
  }

  /** stepDownLocked names the new leader to every waiter, persistLocked tells them that the node has failed, and
      pausing that it is unavailable; resuming tells nobody anything. */
  lemma EveryWaiterHears(cfg: Config, s: Node, term: nat, leader: Option<Id>)
    requires Shaped(s) && !s.failed
    ensures TellsAll(s, Crashed(s), Unavailable) && TellsAll(s, Paused(s, true), Unavailable)
    ensures Paused(s, false).pending == s.pending && Paused(s, false).answers == s.answers
    ensures var s' := StepDown(cfg, s, term, leader); TellsAll(s, s', if s'.failed then Unavailable else NotLeader(leader))
  {
    hide TellsAll, FailPending, Persist;
    FailPendingTells(s, s.(failed := true, role := Follower, leader := None), Unavailable);
    FailPendingTells(s, s.(paused := true), Unavailable);
    var s1 := if term > s.term then Persist(cfg, s, term, None, s.commit, 0, []) else s;
    HardStateOnly(cfg, s, term, None, s.commit);
    if s1 != Crashed(s) {
      FailPendingTells(s, s1.(role := Follower, leader := leader), NotLeader(leader));
    }
  }

  // ---- Nobody is forgotten ----

  /** From `s` to `s'` no new waiter came: each either still waits or has got an answer, only waiters that no
      longer wait have got one, and answers stay. */
  ghost predicate Attends(s: Node, s': Node) {
    && (forall i {:trigger s.pending[i]} {:trigger s'.pending[i]} :: i in s.pending ==>
          if i in s'.pending then s'.pending[i] == s.pending[i] else s.pending[i].ticket in s'.answers)
    && s'.pending.Keys <= s.pending.Keys
    && s.answers.Keys <= s'.answers.Keys
    && (forall t :: t in s.answers && !Waits(s, t) ==> s'.answers[t] == s.answers[t])
    && (forall t :: t in s'.answers && t !in s.answers ==> NoLongerWaits(s, s', t))
  }

  /** A waiter under this ticket no longer waits. */
  ghost predicate NoLongerWaits(s: Node, s': Node, t: nat) {
    exists i :: i in s.pending && i !in s'.pending && s.pending[i].ticket == t
  }

  lemma AttendsSame(s: Node, s': Node)
    requires s'.pending == s.pending && s'.answers == s.answers
    ensures Attends(s, s')
  {
  }

  lemma AttendsThen(s: Node, s1: Node, s2: Node)
    requires Attends(s, s1) && Attends(s1, s2)
    ensures Attends(s, s2)
  {
    forall t | Waits(s1, t) ensures Waits(s, t) {
      var i :| i in s1.pending && s1.pending[i].ticket == t;
    }
    forall t | t in s2.answers && t !in s.answers ensures NoLongerWaits(s, s2, t) {
      if t in s1.answers {
        var i :| i in s.pending && i !in s1.pending && s.pending[i].ticket == t;
      } else {
        var i :| i in s1.pending && i !in s2.pending && s1.pending[i].ticket == t;
      }
    }
  }

  lemma TellingAllAttends(s: Node, s': Node, a: Answer)
    requires TellsAll(s, s', a)
    ensures Attends(s, s')
  {
    forall t | t in s.answers ensures t in s'.answers {
      if Waits(s, t) {
        var i :| i in s.pending && s.pending[i].ticket == t;
      }
    }
    forall t | t in s'.answers && t !in s.answers ensures NoLongerWaits(s, s', t) {
      var i :| i in s.pending && s.pending[i].ticket == t;
    }
  }

  lemma CrashAttends(s: Node)
    ensures Attends(s, Crashed(s))
  {
    FailPendingTells(s, s.(failed := true, role := Follower, leader := None), Unavailable);
    TellingAllAttends(s, Crashed(s), Unavailable);
  }

  lemma PersistAttends(cfg: Config, s: Node, term: nat, vote: Option<Id>, commit: nat, from: nat, entries: seq<Entry>)
    requires Shaped(s)
    ensures Attends(s, Persist(cfg, s, term, vote, commit, from, entries))
  {
    hide St.Objection, Attends, Crashed;
    CrashAttends(s);
    var s' := Persist(cfg, s, term, vote, commit, from, entries);
    if s' != Crashed(s) {
      AttendsSame(s, s');
    }
  }

  lemma StepDownAttends(cfg: Config, s: Node, term: nat, leader: Option<Id>)
    requires Shaped(s) && !s.failed
    ensures Attends(s, StepDown(cfg, s, term, leader))
  {
    var s' := StepDown(cfg, s, term, leader);
    EveryWaiterHears(cfg, s, term, leader);
    TellingAllAttends(s, s', if s'.failed then Unavailable else NotLeader(leader));
  }

  lemma ApplyNextAttends(s: Node)
    requires Shaped(s) && s.applied < s.commit
    ensures Attends(s, ApplyNext(s))
  {
    hide ApplyEntry, Hear;
    var i := s.applied + 1;
    if i in s.pending {
      assert NoLongerWaits(s, ApplyNext(s), s.pending[i].ticket);
      assert Waits(s, s.pending[i].ticket);
    }
  }

  lemma {:induction false} ApplyAllAttends(s: Node)
    requires Shaped(s)
    ensures Attends(s, ApplyAll(s))
    decreases s.commit - s.applied
  {
    hide Attends, ApplyEntry, Hear;
    if s.applied < s.commit {
      ApplyNextAttends(s);
      ApplyAllAttends(ApplyNext(s));
      AttendsThen(s, ApplyNext(s), ApplyAll(s));
    } else {
      AttendsSame(s, s);
    }
  }

  lemma MaybeSnapshotAttends(cfg: Config, s: Node)
    requires Shaped(s) && (s.role == Leader ==> s.applied == s.commit)
    ensures Attends(s, MaybeSnapshot(cfg, s))
  {
    hide Attends, Crashed, CheckpointRecord, St.Objection;
    CrashAttends(s);
    if MaybeSnapshot(cfg, s) != Crashed(s) {
      AttendsSame(s, MaybeSnapshot(cfg, s));
    }
  }

  lemma ApplyLockedAttends(cfg: Config, s: Node)
    requires Shaped(s)
    ensures Attends(s, ApplyLocked(cfg, s))
  {
    hide Attends, ApplyAll, MaybeSnapshot;
    AppliedToCommit(s);
    ApplyAllAttends(s);
    MaybeSnapshotAttends(cfg, ApplyAll(s));
    AttendsThen(s, ApplyAll(s), ApplyLocked(cfg, s));
  }

  lemma AdvanceCommitAttends(cfg: Config, s: Node)
    requires Shaped(s)
    ensures Attends(s, AdvanceCommit(cfg, s))
  {
    hide Attends, Persist, ApplyLocked;
    AttendsSame(s, s);
    if s.role == Leader && Available(s) && CommitTarget(cfg, s, Last(s)).Some? {
      var i := CommitTarget(cfg, s, Last(s)).value;
      var s1 := Persist(cfg, s, s.term, s.vote, i, 0, []);
      PersistAttends(cfg, s, s.term, s.vote, i, 0, []);
      ApplyLockedAttends(cfg, s1);
      AttendsThen(s, s1, ApplyLocked(cfg, s1));
    }
  }

  lemma BecomeLeaderAttends(cfg: Config, s: Node)
    requires Shaped(s)
    ensures Attends(s, BecomeLeader(cfg, s))
  {
    hide Attends, Persist, AdvanceCommit;
    var c := Crowned(cfg, s);
    var s1 := LeaderAppend(cfg, c, None);
    AttendsSame(s, c);
    PersistAttends(cfg, c, c.term, c.vote, c.commit, Last(c) + 1, [Entry(Last(c) + 1, c.term, None)]);
    AttendsThen(s, c, s1);
    if !s1.failed {
      var s2 := s1.(matched := s1.matched[cfg.self := Last(s1)]);
      AttendsSame(s1, s2);
      AdvanceCommitAttends(cfg, s2);
      AttendsThen(s, s1, s2);
      AttendsThen(s, s2, BecomeLeader(cfg, s));
    }
  }

  // ---- The handlers ----

  lemma TimeoutAttends(cfg: Config, s: Node)
    requires Shaped(s)
    ensures Attends(s, Timeout(cfg, s).0)
  {
    hide Attends, Persist, BecomeLeader;
    AttendsSame(s, s);
    var s0 := Persist(cfg, s, s.term + 1, Some(cfg.self), s.commit, 0, []);
    var s1 := Campaigning(cfg, s);
    PersistAttends(cfg, s, s.term + 1, Some(cfg.self), s.commit, 0, []);
    AttendsSame(s0, s1);
    AttendsThen(s, s0, s1);
    BecomeLeaderAttends(cfg, s1);
    AttendsThen(s, s1, BecomeLeader(cfg, s1));
  }

  lemma HandleVoteAttends(cfg: Config, s: Node, req: VoteRequest)
    requires Shaped(s)
    ensures Attends(s, HandleVote(cfg, s, req).0)
  {
    hide Attends, Persist, StepDown;
    AttendsSame(s, s);
    if Available(s) && req.term >= s.term {
      var s1 := if req.term > s.term then StepDown(cfg, s, req.term, None) else s;
      StepDownAttends(cfg, s, req.term, None);
      var s2 := Persist(cfg, s1, req.term, Some(req.candidate), s1.commit, 0, []);
      PersistAttends(cfg, s1, req.term, Some(req.candidate), s1.commit, 0, []);
      AttendsThen(s, s1, s2);
    }
  }

  lemma HandleVoteResponseAttends(cfg: Config, s: Node, from: Id, req: VoteRequest, resp: VoteResponse)
    requires Shaped(s)
    ensures Attends(s, HandleVoteResponse(cfg, s, from, req, resp))
  {
    hide Attends, BecomeLeader, StepDown;
    AttendsSame(s, s);
    var s1 := s.(votes := s.votes + {from});
    AttendsSame(s, s1);
    BecomeLeaderAttends(cfg, s1);
    AttendsThen(s, s1, BecomeLeader(cfg, s1));
    if Available(s) {
      StepDownAttends(cfg, s, resp.term, None);
    }
  }

  lemma HandleAppendAttends(cfg: Config, s: Node, req: AppendRequest)
    requires Shaped(s)
    ensures Attends(s, HandleAppend(cfg, s, req).0)
  {
    hide Attends, StepDown, MergeEntries;
    AttendsSame(s, s);
    if Available(s) && req.term >= s.term {
      var s1 := StepDown(cfg, s, req.term, Some(req.leader));
      StepDownAttends(cfg, s, req.term, Some(req.leader));
      MergeAttends(cfg, s1, req);
      AttendsThen(s, s1, MergeEntries(cfg, s1, req).0);
    }
  }

  lemma MergeAttends(cfg: Config, s: Node, req: AppendRequest)
    requires Shaped(s)
    ensures Attends(s, MergeEntries(cfg, s, req).0)
  {
    hide Attends, Persist, ApplyLocked, Decide;
    AttendsSame(s, s);
    if Decide(s, req).Save? {
      var commit := FollowedCommit(s.commit, req.leaderCommit, req.prevLogIndex + |req.entries|);
      var from, entries := Decide(s, req).from, Decide(s, req).entries;
      var s1 := Persist(cfg, s, s.term, s.vote, commit, from, entries);
      PersistAttends(cfg, s, s.term, s.vote, commit, from, entries);
      ApplyLockedAttends(cfg, s1);
      AttendsThen(s, s1, ApplyLocked(cfg, s1));
    }
  }

  lemma HandleAppendResponseAttends(cfg: Config, s: Node, from: Id, req: AppendRequest, resp: AppendResponse)
    requires Shaped(s) && s.applied == s.commit
    ensures Attends(s, HandleAppendResponse(cfg, s, from, req, resp))
  {
    hide Attends, AdvanceCommit, StepDown, MaybeSnapshot;
    var s' := HandleAppendResponse(cfg, s, from, req, resp);
    if Available(s) && resp.term > s.term {
      StepDownAttends(cfg, s, resp.term, None);
    } else if Available(s) && s.role == Leader && s.term == req.term == resp.term && resp.success {
      var s0 := Counted(s, from, req.prevLogIndex + |req.entries|);
      AdvanceCommitSettles(cfg, s0);
      var s1 := AdvanceCommit(cfg, s0);
      AttendsSame(s, s0);
      AdvanceCommitAttends(cfg, s0);
      AttendsThen(s, s0, s1);
      MaybeSnapshotAttends(cfg, s1);
      AttendsThen(s, s1, s');
    } else {
      AttendsSame(s, s');
    }
  }

  /** submitLocked takes no one's answer away, and an accepted proposal has a waiter of its own before anything is
      committed: after it, the waiter waits at the index returned or has its answer. */
  lemma SubmitAttends(cfg: Config, s: Node, command: Option<SM.Command>, readKey: Option<SM.Text>, ticket: nat)
    requires Shaped(s)
    ensures var (s', index, error) := Submit(cfg, s, command, readKey, ticket);
            && (error.Some? ==> index.None? && Attends(s, s'))
            && (error.None? ==>
                  && index == Some(|s.log|)
                  && Attends(s.(pending := s.pending[|s.log| := Waiter(ticket, readKey)]), s'))
  {
    hide Attends, Persist, AdvanceCommit;
    AttendsSame(s, s);
    var e := Entry(Last(s) + 1, s.term, command);
    var s1 := LeaderAppend(cfg, s, command);
    PersistAttends(cfg, s, s.term, s.vote, s.commit, Last(s) + 1, [e]);
    if Submit(cfg, s, command, readKey, ticket).2.None? {
      var r, s2 := s.(pending := s.pending[|s.log| := Waiter(ticket, readKey)]), Registered(cfg, s1, Waiter(ticket, readKey));
      AppendingRegisters(cfg, s, command, readKey, ticket);
      AttendsSame(r, s2);
      AdvanceCommitAttends(cfg, s2);
      AttendsThen(r, s2, AdvanceCommit(cfg, s2));
    }
  }

  lemma AppendingRegisters(cfg: Config, s: Node, command: Option<SM.Command>, readKey: Option<SM.Text>, ticket: nat)
    requires Shaped(s) && !s.failed && !LeaderAppend(cfg, s, command).failed
    ensures var s1 := LeaderAppend(cfg, s, command);
            && Last(s1) == |s.log|
            && Registered(cfg, s1, Waiter(ticket, readKey)).pending == s.pending[|s.log| := Waiter(ticket, readKey)]
            && Registered(cfg, s1, Waiter(ticket, readKey)).answers == s.answers
  {
  }

  /** Ticket.Cancel: the ticket's own waiter, if it still waits there, and no other; nobody is told anything. */
  lemma CancelRemovesOwn(s: Node, index: nat, ticket: nat)
    ensures var s' := Cancelled(s, index, ticket);
            && s' == s.(pending := s'.pending)
            && (forall i :: i in s'.pending <==> i in s.pending && !(i == index && s.pending[i].ticket == ticket))
            && (forall i :: i in s'.pending ==> s'.pending[i] == s.pending[i])
  {
  }

  lemma PausingAttends(s: Node, paused: bool)
    ensures Attends(s, Paused(s, paused))
  {
    if paused {
      FailPendingTells(s, s.(paused := true), Unavailable);
      TellingAllAttends(s, Paused(s, true), Unavailable);
    } else {
      AttendsSame(s, Paused(s, false));
    }
  }

  lemma RestartAttends(cfg: Config, s: Node)
    requires Shaped(s)
    ensures Attends(Reopened(s), Restart(cfg, s))
  {
    ApplyLockedAttends(cfg, Reopened(s));
  }

  // ---- Applying answers ----

  /** Whoever has heard something new has heard an outcome. */
  ghost predicate OnlyAnswers(s: Node, s': Node) {
    forall t :: t in s'.answers ==> s'.answers[t].Answered? || (t in s.answers && s.answers[t] == s'.answers[t])
  }

  lemma {:induction false} ApplyAllAnswers(s: Node)
    requires Shaped(s)
    ensures OnlyAnswers(s, ApplyAll(s))
    decreases s.commit - s.applied
  {
    hide ApplyEntry, Hear;
    if s.applied < s.commit {
      ApplyAllAnswers(ApplyNext(s));
    }
  }

  lemma AdvanceCommitAnswers(cfg: Config, s: Node)
    requires Shaped(s)
    ensures var s' := AdvanceCommit(cfg, s); !s'.failed ==> OnlyAnswers(s, s')
  {
    hide Persist, ApplyAll, CheckpointRecord, Crashed;
    if s.role == Leader && Available(s) && CommitTarget(cfg, s, Last(s)).Some? {
      var i := CommitTarget(cfg, s, Last(s)).value;
      var s1 := Persist(cfg, s, s.term, s.vote, i, 0, []);
      HardStateOnly(cfg, s, s.term, s.vote, i);
      CrashFails(s);
      AppliedToCommit(s1);
      ApplyAllAnswers(s1);
      CrashFails(ApplyAll(s1));
    }
  }

  lemma CrashFails(s: Node)
    ensures Crashed(s).failed
  {
  }

  /** An accepted proposal's waiter has either its outcome or nothing yet. */
  lemma SubmitAnswers(cfg: Config, s: Node, command: Option<SM.Command>, readKey: Option<SM.Text>, ticket: nat)
    requires Shaped(s)
    ensures var (s', index, error) := Submit(cfg, s, command, readKey, ticket); error.None? && !s'.failed ==> OnlyAnswers(s, s')
  {
    hide AdvanceCommit, LeaderAppend;
    if Submit(cfg, s, command, readKey, ticket).2.None? {
      AppendingRegisters(cfg, s, command, readKey, ticket);
      AdvanceCommitAnswers(cfg, Registered(cfg, LeaderAppend(cfg, s, command), Waiter(ticket, readKey)));
    }
  }

  // ---- Submitting ----

  /** submitLocked says exactly what stands in the way, and to whom to turn. */
  lemma SubmitSays(cfg: Config, s: Node, command: Option<SM.Command>, readKey: Option<SM.Text>, ticket: nat)
    requires Shaped(s)
    ensures var (s', index, error) := Submit(cfg, s, command, readKey, ticket);
            if s.paused || s.failed then error == Some(SubmitUnavailable) && s' == s
            else if s.role != Leader then error == Some(SubmitNotLeader(s.leader)) && s' == s
            else if command.Some? && !SM.ValidCommand(command.value) then error == Some(SubmitInvalid) && s' == s
            else if |s.log| - 1 - s.commit >= 256 then error == Some(SubmitNoQuorum) && s' == s
            else error == None || (error == Some(SubmitUnavailable) && s'.failed)
  {
  }
}
