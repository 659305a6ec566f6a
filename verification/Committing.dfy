/** How far a leader commits: to the greatest index of its own term that a majority is known to hold. */
module Committing {
  import opened RaftTypes
  import opened NodeModel

  /** The members known to hold index `k`, the node itself among them. */
  ghost function Holding(cfg: Config, s: Node, k: nat): set<Id> {
    set p | p in cfg.members && (p == cfg.self || (p in s.matched && s.matched[p] >= k))
  }

  /** Index `k` is not committed yet and may be: section 5.4.2 of the Raft paper (extended version). */
  ghost predicate Committable(cfg: Config, s: Node, k: nat) {
    s.commit < k < |s.log| && s.log[k].term == s.term && 2 * |Holding(cfg, s, k)| > |cfg.members|
  }

  ghost predicate NothingCommittable(cfg: Config, s: Node) {
    forall k: nat :: !Committable(cfg, s, k)
  }

  lemma ReplicatedIsHeld(cfg: Config, s: Node, k: nat)
    requires k > 0
    ensures Replicated(cfg, s, k) <==> 2 * |Holding(cfg, s, k)| > |cfg.members|
  {
    assert Holding(cfg, s, k) == set p | p in cfg.members && (p == cfg.self || MatchOf(s, p) >= k);
  }

  /** The scan from index `i` down finds the greatest committable index, and one if there is one. */
  lemma {:induction false} TargetIsGreatest(cfg: Config, s: Node, i: nat)
    requires Shaped(s) && i <= Last(s)
    ensures var t := CommitTarget(cfg, s, i);
            && (t.Some? ==> Committable(cfg, s, t.value))
            && (forall k: nat :: k <= i && Committable(cfg, s, k) ==> t.Some? && k <= t.value)
  {
    if i > s.commit {
      ReplicatedIsHeld(cfg, s, i);
      TargetIsGreatest(cfg, s, i - 1);
    }
  }

  lemma TargetDecides(cfg: Config, s: Node)
    requires Shaped(s)
    ensures var t := CommitTarget(cfg, s, Last(s));
            && (if t.Some? then Committable(cfg, s, t.value) else NothingCommittable(cfg, s))
            && (forall k: nat :: Committable(cfg, s, k) ==> t.Some? && k <= t.value)
  {
    TargetIsGreatest(cfg, s, Last(s));
  }

  /** What a leader commits when it can: the greatest index there is, or nothing when there is none; and then
      nothing is left. */
  lemma CommitsAllItCan(cfg: Config, s: Node)
    requires Shaped(s) && s.role == Leader && Available(s)
    ensures var s' := AdvanceCommit(cfg, s);
            !s'.failed ==>
              && (if NothingCommittable(cfg, s) then s'.commit == s.commit else Committable(cfg, s, s'.commit))
              && (forall k: nat :: Committable(cfg, s, k) ==> k <= s'.commit)
              && NothingCommittable(cfg, s')
  {
    hide Replicated, Persist, ApplyLocked;
    TargetDecides(cfg, s);
    AdvancesTo(cfg, s);
    var s' := AdvanceCommit(cfg, s);
    if !s'.failed {
      forall k: nat ensures !Committable(cfg, s', k) {
        assert Holding(cfg, s', k) == Holding(cfg, s, k);
        assert Committable(cfg, s', k) ==> Committable(cfg, s, k);
      }
    }
  }

  lemma AdvancesTo(cfg: Config, s: Node)
    requires Shaped(s) && s.role == Leader && Available(s)
    ensures var s', t := AdvanceCommit(cfg, s), CommitTarget(cfg, s, Last(s));
            !s'.failed ==>
              && s'.commit == (if t.Some? then t.value else s.commit)
              && s'.log == s.log && s'.term == s.term && s'.vote == s.vote && s'.votes == s.votes
              && s'.matched == s.matched && s'.role == Leader && s'.leader == s.leader
  {
    hide Persist, ApplyLocked;
    var t := CommitTarget(cfg, s, Last(s));
    if t.Some? {
      var s1 := Persist(cfg, s, s.term, s.vote, t.value, 0, []);
      HardStateOnly(cfg, s, s.term, s.vote, t.value);
      AppliesOnly(cfg, s1);
    }
  }

  lemma AppliesOnly(cfg: Config, s: Node)
    requires Shaped(s)
    ensures var s' := ApplyLocked(cfg, s);
            && s'.commit == s.commit && s'.log == s.log && s'.term == s.term && s'.vote == s.vote && s'.votes == s.votes
            && s'.matched == s.matched && (!s'.failed ==> s'.role == s.role && s'.leader == s.leader)
  {
    hide CheckpointRecord;
    ApplyAllKeepsTerm(s);
    AppliedToCommit(s);
  }

  // ---- Compacting ----

  /** Enough is committed above the base, and every other member is known to hold all of it. */
  ghost predicate Due(cfg: Config, s: Node) {
    && 0 < cfg.snapshotEvery <= s.commit - s.base
    && forall p :: p in cfg.members && p != cfg.self ==> p in s.matched && s.matched[p] >= s.commit
  }

  /** A leader compacts when it is due and compacting is enabled, and only then; and then it no longer is. */
  lemma CompactsWhenDue(cfg: Config, s: Node)
    requires Shaped(s) && (s.role == Leader ==> s.applied == s.commit)
    ensures var s' := MaybeSnapshot(cfg, s);
            !s'.failed ==>
              && s' == (if s.role == Leader && Due(cfg, s) then s.(base := s.commit, snapshot := s.machine) else s)
              && (s'.role == Leader ==> !Due(cfg, s'))
  {
    hide CheckpointRecord;
    if cfg.snapshotEvery > 0 && s.commit - s.base >= cfg.snapshotEvery {
      assert Due(cfg, s) <==> !exists p :: p in cfg.members && p != cfg.self && MatchOf(s, p) < s.commit;
    }
  }

  /** Committing leaves nothing due that was not due before. */
  lemma CommittingCompacts(cfg: Config, s: Node)
    requires Shaped(s) && s.role == Leader && Available(s)
    ensures var s' := AdvanceCommit(cfg, s); !s'.failed && Due(cfg, s') ==> s' == s
  {
    hide Persist, MaybeSnapshot, ApplyAll, Due;
    if CommitTarget(cfg, s, Last(s)).Some? {
      var t := CommitTarget(cfg, s, Last(s)).value;
      var s1 := Persist(cfg, s, s.term, s.vote, t, 0, []);
      HardStateOnly(cfg, s, s.term, s.vote, t);
      AppliedToCommit(s1);
      CompactsWhenDue(cfg, ApplyAll(s1));
    }
  }
}
