/** Appending: at the new leader, at a standing leader, and at a follower. */
module Replication {
  import opened Wrappers
  import opened RaftTypes
  import opened NodeModel
  import opened Cluster
  import opened Invariant
  import opened Preservation
  import opened QuietSteps
  import opened Elections
  import SM = StateMachine

  // ---- Leaders ----

  /** A log extended by its own term's leader is good if it was good before. */
  lemma ExtendedLog(w: World, w': World, log: Log, e: Entry)
    requires Grows(w, w') && GoodLog(w, log)
    requires e.index == |log| && e.term > 0 && e.term >= LastTerm(log) && ValidEntry(e)
    requires e.term in w'.reigns && w'.reigns[e.term].log == log + [e]
    ensures GoodLog(w', log + [e])
  {
    GoodLogGrows(w, w', log);
    forall i | 0 < i < |log + [e]| ensures AnchoredAt(w', log + [e], i) {
      if i < |log| {
        assert AnchoredAt(w', log, i);
      }
    }
    assert WellFormed(log + [e]) by {
      assert WellFormed(log);
    }
  }

  /** A leader's log keeps everything it acknowledged, because it holds all that may be chosen. */
  lemma LeaderKeeps(w: World, n: Id, t: nat)
    requires t in w.reigns && WellFormedReigns(w)
    requires forall t2: nat :: Ack(w, n, t2) > 0 ==> t2 <= t
    requires forall t1: nat, i: nat :: t1 < t && Choosable(w, t1, i) ==> Agree(w.reigns[t1].log, w.reigns[t].log, i + 1)
    ensures Kept(w, n, w.reigns[t].log)
  {
    forall t2: nat, t1: nat, i: nat | t1 <= t2 && t2 in w.reigns && Choosable(w, t1, i)
      ensures Agree(w.reigns[t1].log, w.reigns[t].log, Least(i, Ack(w, n, t2)) + 1)
    {
      if Ack(w, n, t2) == 0 {
        assert WellFormed(w.reigns[t1].log) && WellFormed(w.reigns[t].log);
      } else if t1 < t {
        assert Agree(w.reigns[t1].log, w.reigns[t].log, i + 1);
      }
    }
  }

  lemma AcksUpToTerm(w: World, n: Id)
    requires AcksOK(w) && n in w.nodes
    ensures forall t: nat :: Ack(w, n, t) > 0 ==> t <= w.nodes[n].term
  {
    forall t: nat | Ack(w, n, t) > 0 ensures t <= w.nodes[n].term {
      AckBound(w, n, t);
    }
  }

  /** What was covered and stable of a log is so of its extension. */
  lemma ExtendedParts(w: World, w': World, s: Node, s': Node, e: Entry)
    requires Grows(w, w') && Shaped(s) && s'.log == s.log + [e]
    requires s'.term == s.term && s'.commit == s.commit && s'.base == s.base
    requires Covered(w, s.term, s.log, s.commit) && Stable(w, s.log, s.base)
    ensures Covered(w', s'.term, s'.log, s'.commit) && Stable(w', s'.log, s'.base)
  {
    hide Grows, Covered, Stable;
    CoveredGrows(w, w', s.term, s.term, s.log, s'.log, s.commit);
    StableGrows(w, w', s.log, s'.log, s.base);
  }

  lemma ElectGrows(w: World, n: Id)
    requires AcksOK(w) && n in w.nodes && Shaped(w.nodes[n]) && w.nodes[n].term !in w.reigns
    ensures Grows(w, DoElect(w, n)) && OnlyAt(w, DoElect(w, n), n)
  {
    AckBound(w, n, w.nodes[n].term);
    hide AcksOK, Constant;
    var w', s := DoElect(w, n), w.nodes[n];
    assert forall m :: TermOf(w', m) == TermOf(w, m);
    assert forall m, t :: Ack(w', m, t) == if m == n && t == s.term then |s.log| else Ack(w, m, t);
  }

  lemma ElectCompleteness(w: World, n: Id, t1: nat, i: nat)
    requires Inv(w) && n in w.nodes && Shaped(w.nodes[n]) && w.nodes[n].role == Candidate
    requires Majority(w.nodes[n].votes, w.members) && w.nodes[n].term !in w.reigns
    requires var w' := DoElect(w, n);
             t1 < w.nodes[n].term && Choosable(w', t1, i)
    ensures var w' := DoElect(w, n); Agree(w'.reigns[t1].log, w'.reigns[w.nodes[n].term].log, i + 1)
  {
    ElectGrows(w, n);
    ChoosableShrinks(w, DoElect(w, n), t1, i);
    WinnerHolds(w, n, t1, i);
  }

  lemma CandidateFacts(w: World, n: Id)
    requires Inv(w) && n in w.nodes && w.nodes[n].role == Candidate
    ensures var s := w.nodes[n];
            && n in w.members && CandidatePart(w, n, s) && GoodLog(w, s.log) && |s.log| > 0 && LastTerm(s.log) < s.term
  {
    NodeParts(w, n);
    assert CampaignOK(w, n, w.nodes[n].term, w.campaigns[(n, w.nodes[n].term)]);
  }

  lemma ElectReign(w: World, n: Id)
    requires Inv(w) && n in w.nodes && Shaped(w.nodes[n]) && w.nodes[n].role == Candidate
    requires Majority(w.nodes[n].votes, w.members) && w.nodes[n].term !in w.reigns
    ensures var w' := DoElect(w, n); ReignOK(w', w.nodes[n].term, w'.reigns[w.nodes[n].term])
  {
    var w', s := DoElect(w, n), w.nodes[n];
    CandidateFacts(w, n);
    ElectGrows(w, n);
    assert TermOf(w', n) == s.term;
    hide Inv, AcksOK, Grows, GoodLog, Majority, Constant;
    ExtendedLog(w, w', s.log, Entry(|s.log|, s.term, None));
  }

  lemma ElectedLeads(w: World, n: Id)
    requires AcksOK(w) && n in w.nodes && w.members == w.nodes.Keys && Shaped(w.nodes[n]) && VotePart(w, n, w.nodes[n])
    ensures var w' := DoElect(w, n);
            && Shaped(w'.nodes[n]) && w'.nodes[n].failed == w.nodes[n].failed && w'.nodes[n].role == Leader
            && VotePart(w', n, w'.nodes[n]) && LeaderPart(w', n, w'.nodes[n])
            && Agree(w.nodes[n].log, w'.nodes[n].log, |w.nodes[n].log|)
  {
  }

  lemma ElectNode(w: World, n: Id)
    requires Inv(w) && n in w.nodes && Shaped(w.nodes[n]) && w.nodes[n].role == Candidate
    requires Majority(w.nodes[n].votes, w.members) && w.nodes[n].term !in w.reigns
    ensures var w' := DoElect(w, n);
            ReignOK(w', w.nodes[n].term, w'.reigns[w.nodes[n].term]) && NodeOK(w', n, w'.nodes[n])
  {
    NodeParts(w, n);
    LogParts(w, n);
    ElectedLogParts(w, n);
    ElectedLeads(w, n);
    hide Inv, AcksOK, Covered, Stable, Kept, VotePart, LeaderPart, GoodLog, Majority;
    ElectReign(w, n);
    ReignLogIsWellFormed(DoElect(w, n), w.nodes[n].term);
    ElectKeeps(w, n);
  }

  lemma ElectedLogParts(w: World, n: Id)
    requires AcksOK(w) && n in w.nodes && Shaped(w.nodes[n]) && w.nodes[n].term !in w.reigns
    requires Covered(w, w.nodes[n].term, w.nodes[n].log, w.nodes[n].commit) && Stable(w, w.nodes[n].log, w.nodes[n].base)
    ensures var w' := DoElect(w, n);
            var s' := w'.nodes[n];
            Covered(w', s'.term, s'.log, s'.commit) && Stable(w', s'.log, s'.base)
  {
    ElectGrows(w, n);
    hide AcksOK, Grows, Covered, Stable;
    ExtendedParts(w, DoElect(w, n), w.nodes[n], DoElect(w, n).nodes[n], Entry(|w.nodes[n].log|, w.nodes[n].term, None));
  }

  lemma ElectKeeps(w: World, n: Id)
    requires Inv(w) && n in w.nodes && Shaped(w.nodes[n]) && w.nodes[n].role == Candidate
    requires Majority(w.nodes[n].votes, w.members) && w.nodes[n].term !in w.reigns
    requires var w' := DoElect(w, n); WellFormed(w'.reigns[w.nodes[n].term].log)
    ensures var w' := DoElect(w, n); Kept(w', n, w'.nodes[n].log)
  {
    var w', t := DoElect(w, n), w.nodes[n].term;
    AcksUpToTerm(w, n);
    assert WellFormedReigns(w') by {
      ReignsWellFormed(w);
      forall t2 | t2 in w'.reigns ensures WellFormed(w'.reigns[t2].log) {
        assert t2 != t ==> WellFormed(w.reigns[t2].log);
      }
    }
    forall t1: nat, i: nat | t1 < t && Choosable(w', t1, i) ensures Agree(w'.reigns[t1].log, w'.reigns[t].log, i + 1) {
      ElectCompleteness(w, n, t1, i);
    }
    forall t2: nat | Ack(w', n, t2) > 0 ensures t2 <= t {
      assert t2 == t || Ack(w, n, t2) == Ack(w', n, t2);
    }
    LeaderKeeps(w', n, t);
  }

  lemma ElectAcks(w: World, n: Id)
    requires AcksOK(w) && n in w.nodes && n in w.members && Shaped(w.nodes[n])
    ensures var w' := DoElect(w, n);
            && (forall t :: (n, t) in w'.acks ==> AckOK(w', n, t))
            && (forall m, t :: (m, t) in w'.acks && m != n ==> (m, t) in w.acks)
  {
    var w' := DoElect(w, n);
    forall t | (n, t) in w'.acks ensures AckOK(w', n, t) {
      assert t != w.nodes[n].term ==> AckOK(w, n, t);
    }
  }

  lemma ElectNewFacts(w: World, n: Id)
    requires Inv(w) && n in w.nodes && Shaped(w.nodes[n]) && w.nodes[n].role == Candidate
    requires Majority(w.nodes[n].votes, w.members) && w.nodes[n].term !in w.reigns
    ensures NewFacts(w, DoElect(w, n), n)
  {
    var w' := DoElect(w, n);
    ElectNode(w, n);
    ElectAcks(w, n);
    forall t1: nat, i: nat, t2: nat | t1 < t2 && t2 in w'.reigns && t2 !in w.reigns && Choosable(w', t1, i)
      ensures Agree(w'.reigns[t1].log, w'.reigns[t2].log, i + 1)
    {
      ElectCompleteness(w, n, t1, i);
    }
  }

  lemma ElectStep(w: World, step: Step)
    requires Inv(w) && Enabled(w, step) && step.Elect?
    ensures Inv(Do(w, step)) && Grows(w, Do(w, step))
  {
    var n := step.n;
    assert Majority(w.nodes[n].votes, w.members) by {
      assert NodeOK(w, n, w.nodes[n]);
    }
    TermIsFree(w, n);
    ElectGrows(w, n);
    ElectNewFacts(w, n);
    Inherit(w, DoElect(w, n), n);
  }

  lemma AppendGrows(w: World, n: Id, command: Option<SM.Command>, readKey: Option<SM.Text>)
    requires n in w.nodes && Shaped(w.nodes[n]) && w.nodes[n].role == Leader && LeaderPart(w, n, w.nodes[n])
    ensures var w' := DoPropose(w, n, command, readKey); Grows(w, w') && OnlyAt(w, w', n)
  {
    var w', s := DoPropose(w, n, command, readKey), w.nodes[n];
    assert forall m :: TermOf(w', m) == TermOf(w, m);
    assert forall m, t :: Ack(w', m, t) == if m == n && t == s.term then |s.log| else Ack(w, m, t);
  }

  lemma ProposeGrows(w: World, step: Step)
    requires Inv(w) && Enabled(w, step) && step.Propose?
    ensures Grows(w, Do(w, step)) && OnlyAt(w, Do(w, step), step.n)
  {
    AppendGrows(w, step.n, step.command, step.readKey) by {
      assert NodeOK(w, step.n, w.nodes[step.n]);
    }
  }

  lemma LeaderFacts(w: World, n: Id)
    requires Inv(w) && n in w.nodes && w.nodes[n].role == Leader
    ensures var s := w.nodes[n]; s.term in w.reigns && ReignOK(w, s.term, w.reigns[s.term]) && w.reigns[s.term].log == s.log
  {
    NodeParts(w, n);
  }

  lemma ProposeReign(w: World, step: Step)
    requires Inv(w) && Enabled(w, step) && step.Propose?
    ensures var w', t := Do(w, step), w.nodes[step.n].term; t in w'.reigns && ReignOK(w', t, w'.reigns[t])
  {
    var n, w' := step.n, Do(w, step);
    var s := w.nodes[n];
    ProposeGrows(w, step);
    LeaderFacts(w, n);
    assert TermOf(w', n) == TermOf(w, n);
    hide Inv, Grows, GoodLog, Majority;
    ExtendedLog(w, w', s.log, Entry(|s.log|, s.term, step.command));
  }

  lemma ProposedLogParts(w: World, n: Id, command: Option<SM.Command>, readKey: Option<SM.Text>)
    requires n in w.nodes && Shaped(w.nodes[n]) && w.nodes[n].role == Leader && LeaderPart(w, n, w.nodes[n])
    requires Covered(w, w.nodes[n].term, w.nodes[n].log, w.nodes[n].commit) && Stable(w, w.nodes[n].log, w.nodes[n].base)
    ensures var w' := DoPropose(w, n, command, readKey);
            var s' := w'.nodes[n];
            Covered(w', s'.term, s'.log, s'.commit) && Stable(w', s'.log, s'.base)
  {
    hide Grows, Covered, Stable;
    AppendGrows(w, n, command, readKey);
    var w' := DoPropose(w, n, command, readKey);
    ExtendedParts(w, w', w.nodes[n], w'.nodes[n], Entry(|w.nodes[n].log|, w.nodes[n].term, command));
  }

  lemma ProposerLeads(w: World, step: Step)
    requires Enabled(w, step) && step.Propose? && w.members == w.nodes.Keys
    requires VotePart(w, step.n, w.nodes[step.n]) && LeaderPart(w, step.n, w.nodes[step.n])
    ensures var n, w' := step.n, Do(w, step);
            var s, s' := w.nodes[n], w'.nodes[n];
            && Shaped(s') && s'.failed == s.failed && s'.role == Leader && s'.term == s.term && s'.log == w'.reigns[s.term].log
            && VotePart(w', n, s') && LeaderPart(w', n, s')
  {
    var n, w' := step.n, Do(w, step);
    var s, s' := w.nodes[n], w'.nodes[n];
    forall p | p in w'.members && p != n ensures MatchOf(s', p) <= Ack(w', p, s'.term) {
      assert MatchOf(s, p) <= Ack(w, p, s.term);
    }
  }

  lemma ProposerParts(w: World, step: Step)
    requires Inv(w) && Enabled(w, step) && step.Propose?
    ensures var w', n := Do(w, step), step.n;
            var s, s' := w.nodes[n], w'.nodes[n];
            && Shaped(s') && !s'.failed && s'.role == Leader && s'.term == s.term && s'.log == w'.reigns[s.term].log
            && VotePart(w', n, s') && LeaderPart(w', n, s')
            && Covered(w', s'.term, s'.log, s'.commit) && Stable(w', s'.log, s'.base)
  {
    NodeParts(w, step.n);
    LogParts(w, step.n);
    hide Inv, Covered, Stable, VotePart, LeaderPart, LogPart, Kept, CandidatePart;
    ProposerLeads(w, step);
    ProposedLogParts(w, step.n, step.command, step.readKey);
  }

  lemma ProposeNode(w: World, step: Step)
    requires Inv(w) && Enabled(w, step) && step.Propose?
    ensures var w', t := Do(w, step), w.nodes[step.n].term;
            ReignOK(w', t, w'.reigns[t]) && NodeOK(w', step.n, w'.nodes[step.n])
  {
    hide Inv, Covered, Stable, Kept, VotePart, LeaderPart, GoodLog, Majority;
    var w', t := Do(w, step), w.nodes[step.n].term;
    ProposeReign(w, step);
    ProposerParts(w, step);
    ReignLogIsWellFormed(w', t);
    ProposeKeeps(w, step);
  }

  lemma ReignLogIsWellFormed(w: World, t: nat)
    requires t in w.reigns && ReignOK(w, t, w.reigns[t])
    ensures WellFormed(w.reigns[t].log)
  {
  }

  lemma ProposeKeeps(w: World, step: Step)
    requires Inv(w) && Enabled(w, step) && step.Propose?
    requires WellFormed(Do(w, step).reigns[w.nodes[step.n].term].log)
    ensures Kept(Do(w, step), step.n, Do(w, step).nodes[step.n].log)
  {
    var n, w', t := step.n, Do(w, step), w.nodes[step.n].term;
    ProposeGrows(w, step);
    AcksUpToTerm(w, n);
    assert WellFormedReigns(w') by {
      ReignsWellFormed(w);
      forall t2 | t2 in w'.reigns ensures WellFormed(w'.reigns[t2].log) {
        assert t2 != t ==> WellFormed(w.reigns[t2].log);
      }
    }
    forall t1: nat, i: nat | t1 < t && Choosable(w', t1, i) ensures Agree(w'.reigns[t1].log, w'.reigns[t].log, i + 1) {
      CompletenessGrows(w, w', t1, i, t);
    }
    LeaderKeeps(w', n, t);
  }

  lemma ProposeAcks(w: World, step: Step)
    requires AcksOK(w) && w.nodes.Keys == w.members && Enabled(w, step) && step.Propose?
    ensures forall t :: (step.n, t) in Do(w, step).acks ==> AckOK(Do(w, step), step.n, t)
  {
    forall t | (step.n, t) in Do(w, step).acks ensures AckOK(Do(w, step), step.n, t) {
      assert t != w.nodes[step.n].term ==> AckOK(w, step.n, t);
    }
  }

  lemma ProposeNewFacts(w: World, step: Step)
    requires Inv(w) && Enabled(w, step) && step.Propose?
    ensures NewFacts(w, Do(w, step), step.n)
  {
    ProposeNode(w, step);
    ProposeAcks(w, step);
  }

  lemma ProposeStep(w: World, step: Step)
    requires Inv(w) && Enabled(w, step) && step.Propose?
    ensures Inv(Do(w, step)) && Grows(w, Do(w, step))
  {
    ProposeGrows(w, step);
    ProposeNewFacts(w, step);
    Inherit(w, Do(w, step), step.n);
  }

  // ---- Followers ----

  /** Log matching at the consistency check: equal terms at `prev` mean equal logs through `prev`. */
  lemma LogsMatch(w: World, a: Log, b: Log, i: nat)
    requires GoodLog(w, a) && GoodLog(w, b)
    requires i < |a| && i < |b| && a[i].term == b[i].term
    ensures Agree(a, b, i + 1)
  {
    if i > 0 {
      assert AnchoredAt(w, a, i) && AnchoredAt(w, b, i);
    }
  }

  /** One turn of the follower's scan. */
  lemma ScanTurn(s: Node, req: AppendRequest, log: Log, i: nat)
    requires Shaped(s) && s.base <= req.prevLogIndex && i < |req.entries| && WindowOf(log, req)
    requires var k := req.prevLogIndex + 1 + i;
             && log[k].index == k && 0 < log[k].term <= req.term && k <= |s.log|
             && (k < |s.log| && s.log[k].term == log[k].term ==> s.log[k] == log[k])
    ensures var k := req.prevLogIndex + 1 + i;
            if k < |s.log| && s.log[k].term == log[k].term then ScanEntries(s, req, i) == ScanEntries(s, req, i + 1)
            else ScanEntries(s, req, i) == Differ(i) && !Agree(s.log, log, k + 1)
  {
    assert req.entries[i] == log[req.prevLogIndex + 1 + i];
  }

  lemma ScanEnds(s: Node, req: AppendRequest)
    requires Shaped(s)
    ensures ScanEntries(s, req, |req.entries|) == Same
  {
  }

  /** Equal terms at an index mean equal logs up to it. */
  ghost predicate Matching(a: Log, b: Log) {
    forall k :: 0 <= k < |a| && k < |b| && a[k].term == b[k].term ==> Agree(a, b, k + 1)
  }

  lemma GoodLogsMatch(w: World, a: Log, b: Log)
    requires GoodLog(w, a) && GoodLog(w, b)
    ensures Matching(a, b)
  {
    forall k | 0 <= k < |a| && k < |b| && a[k].term == b[k].term ensures Agree(a, b, k + 1) {
      LogsMatch(w, a, b, k);
    }
  }

  /** The scan met nothing malformed or conflicting, and ended where the logs part. */
  ghost predicate Parts(a: Log, log: Log, req: AppendRequest, scan: Scan) {
    match scan
    case Bad(_) => false
    case Same => Agree(a, log, req.prevLogIndex + |req.entries| + 1)
    case Differ(at) => Agree(a, log, req.prevLogIndex + 1 + at) && !Agree(a, log, req.prevLogIndex + 2 + at)
  }

  /** The follower's scan of a genuine window never meets a malformed or conflicting entry of equal
      term, and finds exactly where the logs part. */
  lemma {:induction false} ScanFindsDifference(s: Node, req: AppendRequest, log: Log, i: nat)
    requires Shaped(s) && s.base <= req.prevLogIndex && i <= |req.entries|
    requires Matching(s.log, log) && WellFormed(log) && LastTerm(log) == req.term && WindowOf(log, req)
    requires Agree(s.log, log, req.prevLogIndex + 1 + i)
    ensures Parts(s.log, log, req, ScanEntries(s, req, i))
    decreases |req.entries| - i
  {
    hide ScanEntries;
    if i == |req.entries| {
      ScanEnds(s, req);
    } else {
      var k := req.prevLogIndex + 1 + i;
      assert log[k].index == k && 0 < log[k].term <= log[|log| - 1].term;
      ScanTurn(s, req, log, i);
      if k < |s.log| && s.log[k].term == log[k].term {
        ScanFindsDifference(s, req, log, i + 1);
      }
    }
  }

  lemma PrefixIsGood(w: World, log: Log, part: Log)
    requires GoodLog(w, log) && |part| > 0 && Agree(part, log, |part|)
    ensures GoodLog(w, part)
  {
    forall i | 0 < i < |part| ensures AnchoredAt(w, part, i) {
      assert AnchoredAt(w, log, i);
    }
  }

  /** What merging does to the follower's log: afterwards it agrees with the leader's through the last
      entry sent, and no prefix it shared with the leader is lost. */
  ghost predicate MergedWell(before: Log, log: Log, merged: Log, prev: nat, matched: nat) {
    && Agree(merged, log, matched + 1)
    && (merged == before || |merged| == matched + 1)
    && (forall x: Log, k: nat {:trigger Agree(x, merged, k)} :: Agree(x, before, k) && Agree(x, log, k) ==> Agree(x, merged, k))
    && Agree(before, merged, prev + 1)
  }

  lemma SpliceWorks(s: Log, log: Log, entries: seq<Entry>, prev: nat, at: nat)
    requires at <= |entries| && prev + |entries| < |log|
    requires forall k :: 0 <= k < |entries| ==> entries[k] == log[prev + 1 + k]
    requires Agree(s, log, prev + 1 + at) && !Agree(s, log, prev + 2 + at)
    ensures MergedWell(s, log, s[..prev + 1 + at] + entries[at..], prev, prev + |entries|)
  {
    var from := prev + 1 + at;
    var merged := s[..from] + entries[at..];
    assert Agree(merged, log, prev + |entries| + 1);
    forall x: Log, k: nat | Agree(x, s, k) && Agree(x, log, k) ensures Agree(x, merged, k) {
      assert Agree(s, log, k);
    }
  }

  lemma MergeWorks(w: World, s: Node, req: AppendRequest, log: Log)
    requires Acceptable(s, req)
    requires GoodLog(w, s.log) && GoodLog(w, log) && LastTerm(log) == req.term && WindowOf(log, req)
    ensures MergedWell(s.log, log, MergedLog(s, req), req.prevLogIndex, req.prevLogIndex + |req.entries|)
  {
    GoodLogsMatch(w, s.log, log);
    ScanFindsDifference(s, req, log, 0);
    MergeByScan(s.log, req, log, ScanEntries(s, req, 0));
  }

  lemma MergeByScan(a: Log, req: AppendRequest, log: Log, scan: Scan)
    requires WindowOf(log, req) && Parts(a, log, req, scan) && (scan.Differ? ==> scan.at < |req.entries|)
    ensures MergedWell(a, log, MergedBy(a, req, scan), req.prevLogIndex, req.prevLogIndex + |req.entries|)
  {
    if scan.Differ? {
      SpliceWorks(a, log, req.entries, req.prevLogIndex, scan.at);
    } else {
      UnchangedWorks(a, log, req.prevLogIndex, req.prevLogIndex + |req.entries|);
    }
  }

  lemma UnchangedWorks(s: Log, log: Log, prev: nat, matched: nat)
    requires prev <= matched && Agree(s, log, matched + 1)
    ensures MergedWell(s, log, s, prev, matched)
  {
  }

  /** A term's leader holds what may be chosen in its own or any earlier term. */
  lemma LeaderHolds(w: World, t: nat, t1: nat, i: nat)
    requires LeaderCompleteness(w) && t in w.reigns && t1 <= t && Choosable(w, t1, i)
    ensures Agree(w.reigns[t1].log, w.reigns[t].log, i + 1)
  {
  }

  /** A covered prefix is in the log of the leader whose term it was covered by. */
  lemma CoveredIsLeaders(w: World, t: nat, log: Log, c: nat)
    requires LeaderCompleteness(w) && WellFormedReigns(w) && WellFormed(log) && t in w.reigns && Covered(w, t, log, c)
    ensures Agree(log, w.reigns[t].log, c + 1)
  {
    if c == 0 {
      assert WellFormed(w.reigns[t].log);
    } else {
      var t1: nat, i: nat :| t1 <= t && CoveredBy(w, log, c, t1, i);
      ChosenIsChoosable(w, t1, i);
      LeaderHolds(w, t, t1, i);
    }
  }

  lemma CoveredBelow(w: World, t: nat, log: Log, c: nat, b: nat)
    requires Covered(w, t, log, c) && b <= c
    ensures Covered(w, t, log, b)
  {
    if b > 0 {
      var t1: nat, i: nat :| t1 <= t && CoveredBy(w, log, c, t1, i);
      assert CoveredBy(w, log, b, t1, i);
    }
  }

  lemma AcceptKeepsTerm(s: Node, req: AppendRequest)
    requires Shaped(s)
    ensures AcceptedNode(s, req).term == s.term
  {
    hide MergedLog, FollowedCommit;
  }

  lemma AcceptGrows(w: World, n: Id, req: AppendRequest)
    requires n in w.nodes && Shaped(w.nodes[n])
    ensures var w' := DoAccept(w, n, req); Grows(w, w') && OnlyAt(w, w', n)
  {
    hide AcceptedNode;
    var w', t, matched := DoAccept(w, n, req), w.nodes[n].term, req.prevLogIndex + |req.entries|;
    AcceptKeepsTerm(w.nodes[n], req);
    assert forall m :: TermOf(w', m) == TermOf(w, m);
    assert forall m, u :: Ack(w', m, u) == if m == n && u == t && Ack(w, n, t) < matched then matched else Ack(w, m, u);
  }

  /** Everything the accepting follower has to keep is kept. */
  lemma FollowerKeeps(w: World, w': World, n: Id, before: Log, merged: Log, t: nat, prev: nat, matched: nat)
    requires Grows(w, w') && w'.reigns == w.reigns && LeaderCompleteness(w) && WellFormedReigns(w)
    requires t in w.reigns && Kept(w, n, before) && WellFormed(merged)
    requires MergedWell(before, w.reigns[t].log, merged, prev, matched)
    requires forall t2: nat :: Ack(w', n, t2) > 0 ==> t2 <= t
    requires forall t2: nat :: t2 != t ==> Ack(w', n, t2) == Ack(w, n, t2)
    requires Ack(w', n, t) == Ack(w, n, t) || Ack(w', n, t) == matched
    ensures Kept(w', n, merged)
  {
    forall t2: nat, t1: nat, i: nat | t1 <= t2 && t2 in w'.reigns && Choosable(w', t1, i)
      ensures Agree(w'.reigns[t1].log, merged, Least(i, Ack(w', n, t2)) + 1)
    {
      var k := Least(i, Ack(w', n, t2)) + 1;
      ChoosableShrinks(w, w', t1, i);
      if k == 1 {
        assert WellFormed(w.reigns[t1].log);
      } else {
        LeaderHolds(w, t, t1, i);
        assert Agree(w.reigns[t1].log, w.reigns[t].log, k);
        if Ack(w', n, t2) == Ack(w, n, t2) {
          assert Agree(w.reigns[t1].log, before, k);
        }
      }
    }
  }

  /** The follower's new commit index is covered in its merged log. */
  lemma FollowerCovered(w: World, t0: nat, t: nat, before: Log, merged: Log, commit: nat, leaderCommit: nat, prev: nat, matched: nat)
    requires LeaderCompleteness(w) && WellFormedReigns(w) && WellFormed(before)
    requires t in w.reigns && t0 <= t
    requires MergedWell(before, w.reigns[t].log, merged, prev, matched)
    requires Covered(w, t0, before, commit) && Covered(w, t, w.reigns[t].log, leaderCommit)
    ensures Covered(w, t, merged, FollowedCommit(commit, leaderCommit, matched))
    ensures FollowedCommit(commit, leaderCommit, matched) >= commit
  {
    var log, c := w.reigns[t].log, FollowedCommit(commit, leaderCommit, matched);
    if c == commit {
      assert Covered(w, t, before, commit);
      CoveredIsLeaders(w, t, before, commit);
      assert Agree(before, before, c + 1) && Agree(before, merged, c + 1);
      CoveredAgrees(w, t, before, merged, c);
    } else {
      CoveredBelow(w, t, log, leaderCommit, c);
      assert Agree(log, merged, c + 1);
      CoveredAgrees(w, t, log, merged, c);
    }
  }

  lemma CoveredAgrees(w: World, t: nat, a: Log, b: Log, c: nat)
    requires Covered(w, t, a, c) && Agree(a, b, c + 1)
    ensures Covered(w, t, b, c)
  {
    if c > 0 {
      var t1: nat, i: nat :| t1 <= t && CoveredBy(w, a, c, t1, i);
      assert CoveredBy(w, b, c, t1, i);
    }
  }

  lemma AcceptMerges(w: World, s: Node, req: AppendRequest)
    requires req.term in w.reigns && req.term == s.term && ReignOK(w, req.term, w.reigns[req.term])
    requires WindowOf(w.reigns[req.term].log, req) && LogPart(w, s) && Acceptable(s, req)
    ensures var merged := MergedLog(s, req);
            && GoodLog(w, merged) && LastTerm(merged) <= s.term
            && MergedWell(s.log, w.reigns[req.term].log, merged, req.prevLogIndex, req.prevLogIndex + |req.entries|)
  {
    var r, merged := w.reigns[req.term].log, MergedLog(s, req);
    MergeWorks(w, s, req, r);
    if merged != s.log {
      PrefixIsGood(w, r, merged);
      assert WellFormed(r) && merged[|merged| - 1] == r[|merged| - 1];
    }
  }

  /** The log parts of the invariant after an accepted request. */
  lemma AcceptLog(w: World, s: Node, req: AppendRequest, merged: Log, commit: nat)
    requires WellFormedReigns(w) && LeaderCompleteness(w) && req.term == s.term && Shaped(s)
    requires req.term in w.reigns && Covered(w, req.term, w.reigns[req.term].log, req.leaderCommit)
    requires WellFormed(s.log) && Covered(w, s.term, s.log, s.commit)
    requires MergedWell(s.log, w.reigns[req.term].log, merged, req.prevLogIndex, req.prevLogIndex + |req.entries|)
    requires commit == FollowedCommit(s.commit, req.leaderCommit, req.prevLogIndex + |req.entries|)
    ensures Shaped(s.(log := merged, commit := commit)) && Covered(w, s.term, merged, commit)
  {
    FollowerCovered(w, s.term, s.term, s.log, merged, s.commit, req.leaderCommit,
                    req.prevLogIndex, req.prevLogIndex + |req.entries|);
  }

  lemma RequestFacts(w: World, req: AppendRequest)
    requires MessagesOK(w) && AppendReq(req) in w.net
    ensures req.term in w.reigns && w.reigns[req.term].leader == req.leader && WindowOf(w.reigns[req.term].log, req)
    ensures Covered(w, req.term, w.reigns[req.term].log, req.leaderCommit)
  {
    assert MessageOK(w, AppendReq(req));
  }

  lemma AcceptedNodeParts(w: World, s: Node, req: AppendRequest)
    requires req.term in w.reigns && req.term == s.term && ReignOK(w, req.term, w.reigns[req.term])
    requires WindowOf(w.reigns[req.term].log, req) && LogPart(w, s) && Acceptable(s, req)
    requires WellFormedReigns(w) && LeaderCompleteness(w)
    requires Covered(w, req.term, w.reigns[req.term].log, req.leaderCommit) && Covered(w, s.term, s.log, s.commit)
    ensures var s' := AcceptedNode(s, req);
            && Shaped(s') && LogPart(w, s') && Covered(w, s'.term, s'.log, s'.commit)
            && MergedWell(s.log, w.reigns[req.term].log, s'.log, req.prevLogIndex, req.prevLogIndex + |req.entries|)
  {
    hide MergedWell, Covered, MergedLog, FollowedCommit, LeaderCompleteness, WellFormedReigns, ReignOK, WindowOf;
    AcceptMerges(w, s, req);
    AcceptLog(w, s, req, AcceptedNode(s, req).log, AcceptedNode(s, req).commit);
  }

  lemma AcceptedParts(w: World, n: Id, req: AppendRequest)
    requires Inv(w) && n in w.nodes && AppendReq(req) in w.net && req.term == w.nodes[n].term
    requires Acceptable(w.nodes[n], req) && req.term in w.reigns
    ensures var s, s' := w.nodes[n], AcceptedNode(w.nodes[n], req);
            && Shaped(s') && LogPart(w, s') && Covered(w, s'.term, s'.log, s'.commit)
            && MergedWell(s.log, w.reigns[req.term].log, s'.log, req.prevLogIndex, req.prevLogIndex + |req.entries|)
  {
    RequestFacts(w, req);
    LogParts(w, n);
    ReignsWellFormed(w);
    assert ReignOK(w, req.term, w.reigns[req.term]);
    AcceptedNodeParts(w, w.nodes[n], req);
  }

  lemma AcceptNode(w: World, n: Id, req: AppendRequest)
    requires Inv(w) && n in w.nodes && AppendReq(req) in w.net && req.term == w.nodes[n].term
    requires w.nodes[n].role == Follower && Acceptable(w.nodes[n], req)
    ensures NodeOK(DoAccept(w, n, req), n, DoAccept(w, n, req).nodes[n])
    ensures req.term in w.reigns && req.prevLogIndex + |req.entries| < |w.reigns[req.term].log|
  {
    RequestFacts(w, req);
    AcceptedParts(w, n, req);
    LogParts(w, n);
    AcceptedStays(w, n, req);
    AcceptedKeeps(w, n, req);
    assert NodeOK(w, n, w.nodes[n]);
  }

  lemma AcceptedStays(w: World, n: Id, req: AppendRequest)
    requires n in w.nodes && Shaped(w.nodes[n]) && req.term == w.nodes[n].term && req.term in w.reigns
    requires Stable(w, w.nodes[n].log, w.nodes[n].base) && w.nodes[n].base <= req.prevLogIndex
    requires var s' := AcceptedNode(w.nodes[n], req);
             && LogPart(w, s') && Covered(w, s'.term, s'.log, s'.commit)
             && MergedWell(w.nodes[n].log, w.reigns[req.term].log, s'.log, req.prevLogIndex, req.prevLogIndex + |req.entries|)
    ensures var w', s' := DoAccept(w, n, req), AcceptedNode(w.nodes[n], req);
            && LogPart(w', s') && Covered(w', s'.term, s'.log, s'.commit) && Stable(w', s'.log, s'.base)
  {
    var w', s, s' := DoAccept(w, n, req), w.nodes[n], AcceptedNode(w.nodes[n], req);
    AcceptGrows(w, n, req);
    GoodLogGrows(w, w', s'.log);
    CoveredGrows(w, w', s'.term, s'.term, s'.log, s'.log, s'.commit);
    assert Agree(s.log, s'.log, s.base + 1);
    StableGrows(w, w', s.log, s'.log, s.base);
  }

  lemma AcceptedKeeps(w: World, n: Id, req: AppendRequest)
    requires ReignsOK(w) && AcksOK(w) && LeaderCompleteness(w)
    requires n in w.nodes && Shaped(w.nodes[n]) && req.term == w.nodes[n].term && req.term in w.reigns
    requires var s' := AcceptedNode(w.nodes[n], req);
             && Kept(w, n, w.nodes[n].log) && WellFormed(s'.log)
             && MergedWell(w.nodes[n].log, w.reigns[req.term].log, s'.log, req.prevLogIndex, req.prevLogIndex + |req.entries|)
    ensures var w', s' := DoAccept(w, n, req), AcceptedNode(w.nodes[n], req); Kept(w', n, s'.log)
  {
    var w', s, s' := DoAccept(w, n, req), w.nodes[n], AcceptedNode(w.nodes[n], req);
    AcceptGrows(w, n, req);
    ReignsWellFormed(w);
    AcksUpToTerm(w, n);
    AcceptAcks(w, n, req);
    FollowerKeeps(w, w', n, s.log, s'.log, req.term, req.prevLogIndex, req.prevLogIndex + |req.entries|);
  }

  lemma AcceptAcks(w: World, n: Id, req: AppendRequest)
    requires n in w.nodes && Shaped(w.nodes[n])
    ensures var w', t := DoAccept(w, n, req), w.nodes[n].term;
            && (forall t2: nat :: t2 != t ==> Ack(w', n, t2) == Ack(w, n, t2))
            && (Ack(w', n, t) == Ack(w, n, t) || Ack(w', n, t) == req.prevLogIndex + |req.entries|)
            && Ack(w', n, t) >= req.prevLogIndex + |req.entries|
            && (forall t2 :: (n, t2) in w'.acks ==> t2 == t || (n, t2) in w.acks)
            && w'.nodes.Keys == w.nodes.Keys && TermOf(w', n) == TermOf(w, n) && w'.reigns == w.reigns
            && w'.members == w.members
  {
  }

  lemma AcceptFacts(w: World, n: Id, req: AppendRequest)
    requires Inv(w) && n in w.nodes && Shaped(w.nodes[n])
    requires req.term == w.nodes[n].term && req.term in w.reigns && req.prevLogIndex + |req.entries| < |w.reigns[req.term].log|
    ensures var w' := DoAccept(w, n, req);
            && (forall t :: (n, t) in w'.acks ==> AckOK(w', n, t))
            && MessageOK(w', AppendRep(req, n, AppendResponse(w.nodes[n].term, true, req.prevLogIndex + |req.entries|, 0)))
  {
    var w' := DoAccept(w, n, req);
    AcceptAcks(w, n, req);
    forall t | (n, t) in w'.acks ensures AckOK(w', n, t) {
      if t != req.term {
        assert AckOK(w, n, t);
      } else {
        AckBound(w, n, t);
      }
    }
  }

  lemma AcceptNewFacts(w: World, step: Step)
    requires Inv(w) && Enabled(w, step) && step.Accept?
    ensures NewFacts(w, Do(w, step), step.n)
  {
    AcceptNode(w, step.n, step.areq);
    AcceptFacts(w, step.n, step.areq);
  }

  lemma AcceptStep(w: World, step: Step)
    requires Inv(w) && Enabled(w, step) && step.Accept?
    ensures Inv(Do(w, step)) && Grows(w, Do(w, step))
  {
    AcceptGrows(w, step.n, step.areq);
    AcceptNewFacts(w, step);
    Inherit(w, Do(w, step), step.n);
  }
}
