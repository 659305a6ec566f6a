/** The handlers are made of the group's steps.  In every reachable state each handler does exactly
    what a chain of steps does, the store never objects to what it saves, and none of the handlers'
    defensive errors is returned. */
module Handlers {
  import opened Wrappers
  import opened RaftTypes
  import opened NodeModel
  import opened Cluster
  import opened Invariant
  import opened Serving
  import opened Safety
  import opened Chains
  import SM = StateMachine
  import St = Store

  // ---- Chains of steps ----

  ghost function AnyStep(): (World, World) -> bool {
    (w, w') => Next(w, w')
  }

  ghost predicate Reaches(w: World, w': World) {
    Linked(AnyStep(), w, w')
  }

  lemma ReachSelf(w: World)
    ensures Reaches(w, w)
  {
    LinkedSelf(AnyStep(), w);
  }

  lemma ReachOne(w: World, step: Step)
    requires Enabled(w, step)
    ensures Reaches(w, Do(w, step))
  {
    LinkedSelf(AnyStep(), w);
    assert Next(w, Do(w, step));
    LinkedThen(AnyStep(), w, w, Do(w, step));
  }

  lemma ReachTransitive(a: World, b: World, c: World)
    requires Reaches(a, b) && Reaches(b, c)
    ensures Reaches(a, c)
  {
    LinkedTransitive(AnyStep(), a, b, c);
  }

  lemma ReachedIsGood(w: World, w': World)
    requires Good(w) && Reaches(w, w')
    ensures Good(w')
  {
    var chain :| Joins(chain, AnyStep(), w, w');
    forall v, v' | Good(v) && AnyStep()(v, v') ensures Good(v') {
      NextIsGood(v, v');
    }
    Invariantly(chain, AnyStep(), v => Good(v), |chain| - 1);
  }

  /** The chain changes node `n` to `s` and no other node. */
  ghost predicate Makes(w: World, w': World, n: Id, s: Node) {
    && Reaches(w, w') && n in w.nodes && w'.nodes == w.nodes[n := s]
    && w'.members == w.members && w'.cluster == w.cluster && w'.snapshotEvery == w.snapshotEvery
    && w.net <= w'.net && w.history <= w'.history
  }

  lemma MakeOne(w: World, step: Step)
    requires Enabled(w, step)
    ensures step.n in Do(w, step).nodes && Makes(w, Do(w, step), step.n, Do(w, step).nodes[step.n])
  {
    ReachOne(w, step);
    if step.Send? || step.Refuse? {
      assert w.nodes[step.n := w.nodes[step.n]] == w.nodes;
    }
  }

  lemma MakeThen(w: World, w1: World, w2: World, n: Id, s1: Node, s2: Node)
    requires Makes(w, w1, n, s1) && Makes(w1, w2, n, s2)
    ensures Makes(w, w2, n, s2)
  {
    ReachTransitive(w, w1, w2);
  }

  lemma MakeNothing(w: World, n: Id)
    requires n in w.nodes
    ensures Makes(w, w, n, w.nodes[n])
  {
    ReachSelf(w);
    assert w.nodes[n := w.nodes[n]] == w.nodes;
  }

  // ---- The store never objects ----

  /** What the store relies on; every node of a reachable state has it. */
  ghost predicate Savable(s: Node) {
    Shaped(s) && !s.failed && WellFormed(s.log) && LastTerm(s.log) <= s.term && SM.ValidState(s.machine)
  }

  /** A member of a reachable group, about to run a handler. */
  ghost predicate Ready(w: World, n: Id) {
    Good(w) && n in w.nodes && n in w.members && Savable(w.nodes[n])
  }

  lemma GoodIsReady(w: World, n: Id)
    requires Good(w) && n in w.nodes
    ensures Ready(w, n)
  {
    var s := w.nodes[n];
    assert NodeOK(w, n, s);
    NodeServes(w, n);
    MachineIsValid(s.log, s.applied);
  }

  /** Hard state alone: accepted when term and commit do not regress and a vote is not replaced. */
  lemma HardStateSaves(cfg: Config, s: Node, term: nat, vote: Option<Id>, commit: nat)
    requires Savable(s) && term >= s.term && s.commit <= commit < |s.log|
    requires term == s.term && s.vote.Some? ==> vote == s.vote
    ensures Persist(cfg, s, term, vote, commit, 0, []) == s.(term := term, vote := vote, commit := commit)
  {
  }

  /** Any tail of a well-formed log passes the store's entry checks. */
  lemma TailPasses(log: Log, from: nat, entries: seq<Entry>, maxTerm: nat)
    requires WellFormed(log) && 0 < from <= |log| && entries == log[from..] && LastTerm(log) <= maxTerm
    ensures St.EntriesError(entries, from, maxTerm, log[from - 1].term).None?
  {
    St.EntriesPass(entries, from, maxTerm, log[from - 1].term);
    forall i | 0 <= i < |entries|
      ensures && entries[i].index == from + i && 0 < entries[i].term <= maxTerm
              && log[from - 1].term <= entries[i].term && ValidEntry(entries[i])
    {
      assert entries[i] == log[from + i] && log[from + i].term <= log[|log| - 1].term;
    }
    forall i, j | 0 <= i <= j < |entries| ensures entries[i].term <= entries[j].term {
      assert entries[i] == log[from + i] && entries[j] == log[from + j];
    }
  }

  /** A log suffix: accepted when it starts above the commit index and continues the log properly. */
  lemma SuffixSaves(cfg: Config, s: Node, commit: nat, from: nat, entries: seq<Entry>, log: Log)
    requires Shaped(s) && !s.failed && s.commit < from <= |s.log| && s.commit <= commit < from + |entries|
    requires log == s.log[..from] + entries && WellFormed(log) && LastTerm(log) <= s.term
    ensures Persist(cfg, s, s.term, s.vote, commit, from, entries) == s.(commit := commit, log := log)
  {
    assert log[from..] == entries;
    TailPasses(log, from, entries, s.term);
    assert St.EntryAt(Disk(s), from - 1) == s.log[from - 1] == log[from - 1];
  }

  lemma CommitHasIndex(s: Node)
    requires Savable(s)
    ensures s.log[s.commit].index == s.commit
  {
  }

  /** A checkpoint of the applied prefix: accepted. */
  lemma CheckpointSaves(cfg: Config, s: Node)
    requires Savable(s)
    ensures St.Objection(Disk(s), cfg.identity, CheckpointRecord(cfg, s)).None?
  {
    hide St.EntriesError, SM.ValidState, WellFormed;
    var tail := s.log[s.commit..];
    assert tail[1..] == s.log[s.commit + 1..];
    TailPasses(s.log, s.commit + 1, tail[1..], s.term);
    assert s.log[s.commit].index == s.commit by {
      CommitHasIndex(s);
    }
    assert tail[0] == s.log[s.commit];
  }
}
