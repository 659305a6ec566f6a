/** The group's safety, over every run: any membership, any interleaving, with loss, duplication,
    reordering, crashes between any two writes, restarts and compaction. */
module Safety {
  import opened RaftTypes
  import opened NodeModel
  import opened Cluster
  import opened Invariant
  import opened Preservation
  import opened QuietSteps
  import opened Elections
  import opened Replication
  import opened History
  import opened Serving

  ghost predicate Good(w: World) {
    Inv(w) && Served(w)
  }

  lemma InitIsGood(w: World)
    requires Init(w)
    ensures Good(w)
  {
    assert WellFormed([SENTINEL]);
    forall n | n in w.nodes ensures NodeOK(w, n, w.nodes[n]) && Applied(w.nodes[n]) && PendingPart(w, n, w.nodes[n]) {
      assert w.nodes[n] == BLANK;
    }
  }

  lemma StepKeepsInv(w: World, step: Step)
    requires Inv(w) && Enabled(w, step)
    ensures Inv(Do(w, step)) && Grows(w, Do(w, step))
  {
    match step
    case Bump(_, _, _) => BumpStep(w, step);
    case Local(_, _) => LocalStep(w, step);
    case Campaign(_) => CampaignStep(w, step);
    case Grant(_, _) => GrantStep(w, step);
    case CountVote(_, _, _, _) => CountVoteStep(w, step);
    case Elect(_) => ElectStep(w, step);
    case Propose(_, _, _) => ProposeStep(w, step);
    case Send(_, _, _) => SendStep(w, step);
    case Accept(_, _) => AcceptStep(w, step);
    case Refuse(_, _) => RefuseStep(w, step);
    case CountMatch(_, _, _, _) => CountMatchStep(w, step);
    case Commit(_, _) => CommitStep(w, step);
    case ApplyOne(_) => ApplyStep(w, step);
    case Compact(_) => CompactStep(w, step);
    case Reopen(_) => ReopenStep(w, step);
  }

  /** Every step keeps the invariant, and history only grows. */
  lemma StepKeepsGood(w: World, step: Step)
    requires Good(w) && Enabled(w, step)
    ensures Good(Do(w, step)) && Grows(w, Do(w, step))
  {
    StepKeepsInv(w, step);
    if step.Propose? {
      ProposeServes(w, step);
    } else if step.ApplyOne? {
      ApplyServes(w, step);
    } else {
      HistoryKeptServes(w, step);
    }
  }

  lemma NextIsGood(w: World, w': World)
    requires Good(w) && Next(w, w')
    ensures Good(w') && Grows(w, w')
  {
    var step :| Enabled(w, step) && w' == Do(w, step);
    StepKeepsGood(w, step);
  }

  lemma {:induction false} RunIsGood(run: seq<World>, k: nat)
    requires IsRun(run) && k < |run|
    ensures Good(run[k])
  {
    if k == 0 {
      InitIsGood(run[0]);
    } else {
      RunIsGood(run, k - 1);
      assert StepAt(run, k);
      NextIsGood(run[k - 1], run[k]);
    }
  }

  lemma GrowsTransitive(a: World, b: World, c: World)
    requires Grows(a, b) && Grows(b, c)
    ensures Grows(a, c)
  {
    forall n ensures TermOf(a, n) <= TermOf(c, n) {
      assert TermOf(a, n) <= TermOf(b, n);
    }
    forall n, t ensures Ack(a, n, t) <= Ack(c, n, t) {
      assert Ack(a, n, t) <= Ack(b, n, t) <= Ack(c, n, t);
    }
    forall n, t | Ack(a, n, t) != Ack(c, n, t) ensures TermOf(a, n) <= t {
      assert TermOf(a, n) <= TermOf(b, n);
      assert Ack(a, n, t) == Ack(b, n, t) ==> Ack(b, n, t) != Ack(c, n, t);
    }
    forall t | t in a.reigns ensures Agree(a.reigns[t].log, c.reigns[t].log, |a.reigns[t].log|) {
      assert Agree(a.reigns[t].log, b.reigns[t].log, |a.reigns[t].log|);
      assert Agree(b.reigns[t].log, c.reigns[t].log, |b.reigns[t].log|);
    }
  }

  lemma {:induction false} RunGrows(run: seq<World>, j: nat, k: nat)
    requires IsRun(run) && j <= k < |run|
    ensures Grows(run[j], run[k])
    decreases k
  {
    if j < k {
      RunGrows(run, j, k - 1);
      LastStepGrows(run, k);
      GrowsTransitive(run[j], run[k - 1], run[k]);
    } else {
      GrowsReflexive(run[j]);
    }
  }

  lemma GrowsReflexive(w: World)
    ensures Grows(w, w)
  {
  }

  lemma LastStepGrows(run: seq<World>, k: nat)
    requires IsRun(run) && 0 < k < |run|
    ensures Grows(run[k - 1], run[k])
  {
    RunIsGood(run, k - 1);
    assert StepAt(run, k);
    NextIsGood(run[k - 1], run[k]);
  }

  // ---- Election safety ----

  /** At most one node is ever leader of a term, over the whole run. */
  lemma ElectionSafety(run: seq<World>, j: nat, k: nat, n: Id, m: Id)
    requires IsRun(run) && j < |run| && k < |run|
    requires n in run[j].nodes && m in run[k].nodes
    requires run[j].nodes[n].role == Leader && run[k].nodes[m].role == Leader
    requires run[j].nodes[n].term == run[k].nodes[m].term
    ensures n == m
  {
    RunIsGood(run, j);
    RunIsGood(run, k);
    assert NodeOK(run[j], n, run[j].nodes[n]) && NodeOK(run[k], m, run[k].nodes[m]);
    if j <= k {
      RunGrows(run, j, k);
    } else {
      RunGrows(run, k, j);
    }
  }

  /** A vote, once cast, is the node's only vote of that term, through any restart. */
  lemma VotesAreFinal(run: seq<World>, j: nat, k: nat, n: Id)
    requires IsRun(run) && j <= k < |run| && n in run[j].nodes && n in run[k].nodes
    ensures run[j].nodes[n].term <= run[k].nodes[n].term
    ensures run[j].nodes[n].term == run[k].nodes[n].term && run[j].nodes[n].vote.Some? ==>
              run[k].nodes[n].vote == run[j].nodes[n].vote
  {
    RunIsGood(run, j);
    RunIsGood(run, k);
    RunGrows(run, j, k);
    assert NodeOK(run[j], n, run[j].nodes[n]) && NodeOK(run[k], n, run[k].nodes[n]);
    assert TermOf(run[j], n) <= TermOf(run[k], n);
  }

  lemma StepKeepsProgress(w: World, step: Step, n: Id)
    requires Enabled(w, step) && n in w.nodes
    ensures n in Do(w, step).nodes
    ensures w.nodes[n].commit <= Do(w, step).nodes[n].commit
    ensures w.nodes[n].base <= Do(w, step).nodes[n].base
    ensures !step.Reopen? ==> w.nodes[n].applied <= Do(w, step).nodes[n].applied
  {
    hide Grants, Acceptable, Solicitation, Window, ApplyEntry, Hear, Replicated, MergedLog;
    if step.ApplyOne? && step.n == n {
      ApplyNextFrame(w.nodes[n]);
    }
  }

  lemma NextKeepsProgress(w: World, w': World, n: Id)
    requires Next(w, w') && n in w.nodes
    ensures n in w'.nodes && w.nodes[n].commit <= w'.nodes[n].commit && w.nodes[n].base <= w'.nodes[n].base
  {
    var step :| Enabled(w, step) && w' == Do(w, step);
    StepKeepsProgress(w, step, n);
  }

  /** A node's commit index and base never go back, through any restart. */
  lemma {:induction false} CommitNeverRegresses(run: seq<World>, j: nat, k: nat, n: Id)
    requires IsRun(run) && j <= k < |run| && n in run[j].nodes
    ensures n in run[k].nodes
    ensures run[j].nodes[n].commit <= run[k].nodes[n].commit && run[j].nodes[n].base <= run[k].nodes[n].base
    decreases k
  {
    if j < k {
      hide Next;
      CommitNeverRegresses(run, j, k - 1, n);
      assert StepAt(run, k);
      NextKeepsProgress(run[k - 1], run[k], n);
    }
  }

  // ---- Log matching ----

  lemma LogsMatchAcross(w: World, w': World, a: Log, b: Log, i: nat)
    requires Grows(w, w') && GoodLog(w, a) && GoodLog(w', b)
    requires i < |a| && i < |b| && a[i].term == b[i].term
    ensures Agree(a, b, i + 1)
  {
    GoodLogGrows(w, w', a);
    LogsMatch(w', a, b, i);
  }

  /** Entries of equal index and term, in any two logs at any two moments, mean equal logs up to there;
      terms never decrease along a log nor exceed the node's term. */
  lemma LogMatching(run: seq<World>, j: nat, k: nat, n: Id, m: Id, i: nat)
    requires IsRun(run) && j < |run| && k < |run| && n in run[j].nodes && m in run[k].nodes
    requires i < |run[j].nodes[n].log| && i < |run[k].nodes[m].log|
    requires run[j].nodes[n].log[i].term == run[k].nodes[m].log[i].term
    ensures Agree(run[j].nodes[n].log, run[k].nodes[m].log, i + 1)
    ensures WellFormed(run[j].nodes[n].log) && LastTerm(run[j].nodes[n].log) <= run[j].nodes[n].term
  {
    RunIsGood(run, j);
    RunIsGood(run, k);
    LogParts(run[j], n);
    LogParts(run[k], m);
    if j <= k {
      RunGrows(run, j, k);
      LogsMatchAcross(run[j], run[k], run[j].nodes[n].log, run[k].nodes[m].log, i);
    } else {
      RunGrows(run, k, j);
      LogsMatchAcross(run[k], run[j], run[k].nodes[m].log, run[j].nodes[n].log, i);
    }
  }

  /** While it leads a term, a leader only appends. */
  lemma LeaderAppendOnly(run: seq<World>, j: nat, k: nat, n: Id)
    requires IsRun(run) && j <= k < |run| && n in run[j].nodes && n in run[k].nodes
    requires run[j].nodes[n].role == Leader && run[k].nodes[n].role == Leader
    requires run[j].nodes[n].term == run[k].nodes[n].term
    ensures run[j].nodes[n].log <= run[k].nodes[n].log
  {
    RunIsGood(run, j);
    RunIsGood(run, k);
    RunGrows(run, j, k);
    NodeParts(run[j], n);
    NodeParts(run[k], n);
    hide Inv, Served, LogPart, VotePart, CandidatePart;
    var t := run[j].nodes[n].term;
    assert Agree(run[j].reigns[t].log, run[k].reigns[t].log, |run[j].reigns[t].log|);
  }

  // ---- Leader completeness and replica agreement ----

  /** Two covered prefixes never disagree. */
  lemma CoveredPrefixesAgree(w: World, t: nat, a: Log, c: nat, u: nat, b: Log, d: nat)
    requires LeaderCompleteness(w) && WellFormed(a) && WellFormed(b)
    requires Covered(w, t, a, c) && Covered(w, u, b, d) && c <= d
    ensures Agree(a, b, c + 1)
  {
    if c > 0 {
      var t1: nat, i: nat :| t1 <= t && CoveredBy(w, a, c, t1, i);
      var t2: nat, k: nat :| t2 <= u && CoveredBy(w, b, d, t2, k);
      ChosenIsChoosable(w, t1, i);
      ChosenIsChoosable(w, t2, k);
      if t1 <= t2 {
        LeaderHolds(w, t2, t1, i);
      } else {
        LeaderHolds(w, t1, t2, k);
      }
    }
  }

  /** What a node knows to be committed at one moment is covered at every later one. */
  lemma CommittedStaysCovered(run: seq<World>, j: nat, k: nat, n: Id)
    requires IsRun(run) && j <= k < |run| && n in run[j].nodes
    ensures var s := run[j].nodes[n]; WellFormed(s.log) && Covered(run[k], s.term, s.log, s.commit)
  {
    RunIsGood(run, j);
    LogParts(run[j], n);
    RunGrows(run, j, k);
    var s := run[j].nodes[n];
    CoveredGrows(run[j], run[k], s.term, s.term, s.log, s.log, s.commit);
  }

  /** Once any node's commit index covers an entry, every leader of that or a later term holds it. */
  lemma LeadersHoldCommitted(run: seq<World>, j: nat, k: nat, m: Id, n: Id)
    requires IsRun(run) && j <= k < |run| && m in run[j].nodes && n in run[k].nodes
    requires run[k].nodes[n].role == Leader && run[k].nodes[n].term >= run[j].nodes[m].term
    ensures Agree(run[j].nodes[m].log, run[k].nodes[n].log, run[j].nodes[m].commit + 1)
  {
    hide MessagesOK, ReignsOK, BallotsOK, CampaignsOK, AcksOK, LeaderCompleteness, Choosable, Chosen;
    RunIsGood(run, k);
    CommittedStaysCovered(run, j, k, m);
    var s, l := run[j].nodes[m], run[k].nodes[n];
    assert NodeOK(run[k], n, l);
    CoveredGrows(run[k], run[k], s.term, l.term, s.log, s.log, s.commit);
    ReignsWellFormed(run[k]);
    CoveredIsLeaders(run[k], l.term, s.log, s.commit);
  }

  /** Nodes that committed the same index, at any two moments, hold the same log up to it. */
  lemma CommittedPrefixesAgree(run: seq<World>, j: nat, k: nat, n: Id, m: Id)
    requires IsRun(run) && j < |run| && k < |run| && n in run[j].nodes && m in run[k].nodes
    requires run[j].nodes[n].commit <= run[k].nodes[m].commit
    ensures Agree(run[j].nodes[n].log, run[k].nodes[m].log, run[j].nodes[n].commit + 1)
  {
    var top := if j <= k then k else j;
    RunIsGood(run, top);
    CommittedStaysCovered(run, j, top, n);
    CommittedStaysCovered(run, k, top, m);
    var a, b := run[j].nodes[n], run[k].nodes[m];
    CoveredPrefixesAgree(run[top], a.term, a.log, a.commit, b.term, b.log, b.commit);
  }

  /** Replicas that applied equally many entries, whenever and wherever, hold the same values, retry
      sessions and count: the sequential machine of the entries they both applied. */
  lemma ReplicaAgreement(run: seq<World>, j: nat, k: nat, n: Id, m: Id)
    requires IsRun(run) && j < |run| && k < |run| && n in run[j].nodes && m in run[k].nodes
    requires run[j].nodes[n].applied <= run[k].nodes[m].applied
    ensures Agree(run[j].nodes[n].log, run[k].nodes[m].log, run[j].nodes[n].applied + 1)
    ensures run[j].nodes[n].machine == MachineAt(run[k].nodes[m].log, run[j].nodes[n].applied)
    ensures run[j].nodes[n].applied == run[k].nodes[m].applied ==> run[j].nodes[n].machine == run[k].nodes[m].machine
  {
    var a, b := run[j].nodes[n], run[k].nodes[m];
    RunIsGood(run, j);
    RunIsGood(run, k);
    NodeServes(run[j], n);
    NodeServes(run[k], m);
    if a.commit <= b.commit {
      CommittedPrefixesAgree(run, j, k, n, m);
    } else {
      CommittedPrefixesAgree(run, k, j, m, n);
    }
    MachineAgrees(a.log, b.log, a.applied);
  }

  // ---- Compaction ----

  lemma KeptAgrees(w: World, n: Id, log: Log, t: nat, t1: nat, i: nat)
    requires Kept(w, n, log) && t1 <= t && t in w.reigns && Choosable(w, t1, i)
    ensures t1 in w.reigns && Agree(w.reigns[t1].log, log, Least(i, Ack(w, n, t)) + 1)
  {
  }

  lemma StableInTerm(w: World, log: Log, base: nat, t: nat, m: Id, kept: Log)
    requires base > 0 && StableAt(w, log, base, t) && m in w.members && Kept(w, m, kept)
    ensures Agree(log, kept, base + 1)
  {
    hide Kept, Choosable, Chosen;
    var t1: nat, i: nat :| t1 <= t && CoveredBy(w, w.reigns[t].log, base, t1, i);
    ChosenIsChoosable(w, t1, i);
    KeptAgrees(w, m, kept, t, t1, i);
  }

  /** A stable prefix is in every member's log. */
  lemma StableIsEverywhere(w: World, log: Log, base: nat, m: Id)
    requires Inv(w) && m in w.nodes && WellFormed(log) && Stable(w, log, base)
    ensures Agree(log, w.nodes[m].log, base + 1)
  {
    LogParts(w, m);
    assert WellFormed(w.nodes[m].log) && m in w.members;
    hide Inv, StableAt, Kept, LogPart, GoodLog;
    if base > 0 {
      var t :| StableAt(w, log, base, t);
      StableInTerm(w, log, base, t, m, w.nodes[m].log);
    }
  }

  /** If a node's base is B, every member's log agrees with it through B, from then on: a compacted
      leader never has to send anything at or below its base. */
  lemma CompactionNeedsNoTransfer(run: seq<World>, j: nat, k: nat, n: Id, m: Id)
    requires IsRun(run) && j <= k < |run| && n in run[j].nodes && m in run[k].nodes
    ensures Agree(run[j].nodes[n].log, run[k].nodes[m].log, run[j].nodes[n].base + 1)
  {
    var s := run[j].nodes[n];
    assert WellFormed(s.log) && Stable(run[k], s.log, s.base) by {
      RunIsGood(run, j);
      LogParts(run[j], n);
      RunGrows(run, j, k);
      StableGrows(run[j], run[k], s.log, s.log, s.base);
    }
    RunIsGood(run, k);
    StableIsEverywhere(run[k], s.log, s.base, m);
  }

  // ---- What an acknowledgement is worth ----

  /** The node stored the first `a` entries of the term's log while it was in that term. */
  ghost predicate StoredThen(run: seq<World>, j: nat, p: Id, t: nat, log: Log, a: nat) {
    j < |run| && p in run[j].nodes && run[j].nodes[p].term == t && Agree(run[j].nodes[p].log, log, a + 1)
  }

  /** An acknowledgement that rises in a step was stored by that step. */
  lemma RisingAckIsStored(w: World, step: Step, p: Id, t: nat)
    requires Inv(w) && Enabled(w, step)
    requires Ack(w, p, t) != Ack(Do(w, step), p, t)
    ensures var w' := Do(w, step);
            && p in w'.nodes && t in w'.reigns && w'.nodes[p].term == t
            && Agree(w'.nodes[p].log, w'.reigns[t].log, Ack(w', p, t) + 1)
  {
    var n, w' := step.n, Do(w, step);
    if step.Accept? {
      RequestFacts(w, step.areq);
      AcceptedParts(w, n, step.areq);
    }
  }

  lemma AckRisesByStoring(w: World, w': World, p: Id, t: nat)
    requires Inv(w) && Next(w, w') && Ack(w', p, t) > 0
    ensures t in w'.reigns
    ensures Ack(w, p, t) == Ack(w', p, t) ==> t in w.reigns && Agree(w.reigns[t].log, w'.reigns[t].log, Ack(w, p, t) + 1)
    ensures Ack(w, p, t) != Ack(w', p, t) ==>
              p in w'.nodes && w'.nodes[p].term == t && Agree(w'.nodes[p].log, w'.reigns[t].log, Ack(w', p, t) + 1)
  {
    var step :| Enabled(w, step) && w' == Do(w, step);
    StepKeepsInv(w, step);
    AckBound(w', p, t);
    if Ack(w, p, t) != Ack(w', p, t) {
      RisingAckIsStored(w, step, p, t);
    } else {
      AckBound(w, p, t);
      assert Agree(w.reigns[t].log, w'.reigns[t].log, |w.reigns[t].log|);
    }
  }

  lemma {:induction false} AckMeansStored(run: seq<World>, k: nat, p: Id, t: nat)
    requires IsRun(run) && k < |run| && Ack(run[k], p, t) > 0
    ensures t in run[k].reigns
    ensures exists j: nat :: j <= k && StoredThen(run, j, p, t, run[k].reigns[t].log, Ack(run[k], p, t))
  {
    if k > 0 {
      var a := Ack(run[k], p, t);
      assert StepAt(run, k);
      AckRisesByStoring(run[k - 1], run[k], p, t) by {
        RunIsGood(run, k - 1);
      }
      if Ack(run[k - 1], p, t) != a {
        assert StoredThen(run, k, p, t, run[k].reigns[t].log, a);
      } else {
        AckMeansStored(run, k - 1, p, t);
        var j: nat :| j <= k - 1 && StoredThen(run, j, p, t, run[k - 1].reigns[t].log, a);
        assert StoredThen(run, j, p, t, run[k].reigns[t].log, a);
      }
    }
  }

  /** While a node leads a term, `match[p] >= i` means that `p` durably stored the leader's log
      through `i` at some moment of that very term. */
  lemma MatchMeansStored(run: seq<World>, k: nat, n: Id, p: Id, i: nat)
    requires IsRun(run) && k < |run| && n in run[k].nodes && run[k].nodes[n].role == Leader
    requires p in run[k].members && p != n && 0 < i <= MatchOf(run[k].nodes[n], p)
    ensures exists j: nat :: j <= k && StoredThen(run, j, p, run[k].nodes[n].term, run[k].nodes[n].log, i)
  {
    RunIsGood(run, k);
    var s := run[k].nodes[n];
    assert NodeOK(run[k], n, s);
    AckMeansStored(run, k, p, s.term);
    var j: nat :| j <= k && StoredThen(run, j, p, s.term, s.log, Ack(run[k], p, s.term));
    assert StoredThen(run, j, p, s.term, s.log, i);
  }
}
