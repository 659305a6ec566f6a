/** What every reachable state of the group satisfies, and the facts that outlive any step. */
module Invariant {
  import opened RaftTypes
  import opened NodeModel
  import opened Cluster

  // ---- Logs ----

  /** Every entry's prefix is a prefix of what the leader of the entry's term appended. */
  ghost predicate AnchoredAt(w: World, log: Log, i: nat)
    requires i < |log|
  {
    log[i].term in w.reigns && Agree(log, w.reigns[log[i].term].log, i + 1)
  }

  ghost predicate Anchored(w: World, log: Log) {
    forall i {:trigger AnchoredAt(w, log, i)} :: 0 < i < |log| ==> AnchoredAt(w, log, i)
  }

  ghost predicate GoodLog(w: World, log: Log) {
    WellFormed(log) && Anchored(w, log)
  }

  // ---- Commitment ----

  /** A node that holds, or may yet come to hold while in term `t`, index `i` of that term's log. */
  predicate CanHold(w: World, p: Id, t: nat, i: nat) {
    Ack(w, p, t) >= i || TermOf(w, p) <= t
  }

  ghost predicate MayStore(w: World, q: set<Id>, t: nat, i: nat) {
    Majority(q, w.members) && forall p :: p in q ==> CanHold(w, p, t, i)
  }

  ghost predicate Stored(w: World, q: set<Id>, t: nat, i: nat) {
    Majority(q, w.members) && forall p :: p in q ==> Ack(w, p, t) >= i
  }

  ghost predicate OwnEntry(w: World, t: nat, i: nat) {
    t in w.reigns && 0 < i < |w.reigns[t].log| && w.reigns[t].log[i].term == t
  }

  /** A majority holds, or may yet hold, an entry of term `t` at index `i`. */
  ghost predicate Choosable(w: World, t: nat, i: nat) {
    OwnEntry(w, t, i) && exists q :: MayStore(w, q, t, i)
  }

  /** A majority stored an entry of term `t` at index `i` while in term `t`. */
  ghost predicate Chosen(w: World, t: nat, i: nat) {
    OwnEntry(w, t, i) && exists q :: Stored(w, q, t, i)
  }

  /** The first `c` entries of `log` lie under an entry chosen in term `t1`. */
  ghost predicate CoveredBy(w: World, log: Log, c: nat, t1: nat, i: nat) {
    Chosen(w, t1, i) && c <= i && Agree(log, w.reigns[t1].log, c + 1)
  }

  /** The first `c` entries of `log` lie under an entry chosen in some term up to `t`. */
  ghost predicate Covered(w: World, t: nat, log: Log, c: nat) {
    c < |log| && (c == 0 || exists t1: nat, i: nat :: t1 <= t && CoveredBy(w, log, c, t1, i))
  }

  // ---- Per-node invariants ----

  ghost predicate LogPart(w: World, s: Node) {
    GoodLog(w, s.log) && LastTerm(s.log) <= s.term
  }

  ghost predicate VotePart(w: World, n: Id, s: Node) {
    && (s.vote.Some? <==> (n, s.term) in w.ballots)
    && (s.vote.Some? ==> w.ballots[(n, s.term)].candidate == s.vote.value)
  }

  ghost predicate CandidatePart(w: World, n: Id, s: Node) {
    s.role == Candidate ==>
      && s.votes <= w.members
      && (n, s.term) in w.campaigns && w.campaigns[(n, s.term)] == s.log
      && (forall v :: v in s.votes ==> (v, s.term) in w.ballots && w.ballots[(v, s.term)].candidate == n)
      && (s.term in w.reigns ==> w.reigns[s.term].leader != n)
  }

  ghost predicate LeaderPart(w: World, n: Id, s: Node) {
    s.role == Leader ==>
      && s.term in w.reigns && w.reigns[s.term].leader == n && w.reigns[s.term].log == s.log
      && Ack(w, n, s.term) == |s.log| - 1
      && (forall p :: p in w.members && p != n ==> MatchOf(s, p) <= Ack(w, p, s.term))
  }

  function Least(a: nat, b: nat): nat { if a < b then a else b }

  /** What a node acknowledged in a term and may be part of a chosen prefix is still in its log. */
  ghost predicate Kept(w: World, n: Id, log: Log) {
    forall t: nat, t1: nat, i: nat :: t1 <= t && t in w.reigns && Choosable(w, t1, i)
      ==> Agree(w.reigns[t1].log, log, Least(i, Ack(w, n, t)) + 1)
  }

  /** All members acknowledged, in one term, a covered prefix that reaches the base. */
  ghost predicate StableAt(w: World, log: Log, base: nat, t: nat) {
    && t in w.reigns
    && Covered(w, t, w.reigns[t].log, base)
    && Agree(log, w.reigns[t].log, base + 1)
    && (forall m :: m in w.members ==> Ack(w, m, t) >= base)
  }

  ghost predicate Stable(w: World, log: Log, base: nat) {
    base < |log| && (base == 0 || exists t :: StableAt(w, log, base, t))
  }

  ghost predicate NodeOK(w: World, n: Id, s: Node) {
    && Shaped(s) && !s.failed
    && LogPart(w, s)
    && VotePart(w, n, s)
    && CandidatePart(w, n, s)
    && LeaderPart(w, n, s)
    && Covered(w, s.term, s.log, s.commit)
    && Stable(w, s.log, s.base)
    && Kept(w, n, s.log)
  }

  // ---- Messages and history ----

  ghost predicate WindowOf(log: Log, req: AppendRequest) {
    && req.prevLogIndex + |req.entries| < |log|
    && log[req.prevLogIndex].term == req.prevLogTerm
    && (forall k :: 0 <= k < |req.entries| ==> req.entries[k] == log[req.prevLogIndex + 1 + k])
  }

  ghost predicate MessageOK(w: World, m: Message) {
    match m
    case VoteReq(req) =>
      && req.candidate in w.members
      && (req.candidate, req.term) in w.campaigns
      && var log := w.campaigns[(req.candidate, req.term)];
         |log| > 0 && req.lastLogIndex == |log| - 1 && req.lastLogTerm == LastTerm(log)
    case VoteRep(req, from, resp) =>
      resp.granted && resp.term == req.term ==>
        from in w.members && (from, req.term) in w.ballots && w.ballots[(from, req.term)].candidate == req.candidate
    case AppendReq(req) =>
      && req.term in w.reigns && w.reigns[req.term].leader == req.leader
      && WindowOf(w.reigns[req.term].log, req)
      && Covered(w, req.term, w.reigns[req.term].log, req.leaderCommit)
    case AppendRep(req, from, resp) =>
      resp.success ==> from in w.members && Ack(w, from, req.term) >= req.prevLogIndex + |req.entries|
  }

  ghost predicate ReignOK(w: World, t: nat, r: Reign) {
    && r.leader in w.members && TermOf(w, r.leader) >= t
    && Majority(r.voters, w.members)
    && (forall v :: v in r.voters ==> (v, t) in w.ballots && w.ballots[(v, t)].candidate == r.leader)
    && GoodLog(w, r.log) && |r.log| > 1 && LastTerm(r.log) == t
  }

  ghost predicate BallotOK(w: World, v: Id, t: nat, b: Ballot) {
    && v in w.members && TermOf(w, v) >= t
    && GoodLog(w, b.log)
    && (b.candidate, t) in w.campaigns
    && |w.campaigns[(b.candidate, t)]| > 0 && UpToDate(w.campaigns[(b.candidate, t)], b.log)
    && (forall t1: nat, i: nat :: t1 < t && Choosable(w, t1, i) && Ack(w, v, t1) >= i
          ==> Agree(w.reigns[t1].log, b.log, i + 1))
  }

  ghost predicate CampaignOK(w: World, c: Id, t: nat, log: Log) {
    c in w.members && TermOf(w, c) >= t && GoodLog(w, log) && LastTerm(log) < t
  }

  ghost predicate AckOK(w: World, n: Id, t: nat) {
    n in w.members && t in w.reigns && t <= TermOf(w, n) && Ack(w, n, t) < |w.reigns[t].log|
  }

  /** Section 5.4.3 of the Raft paper (extended version): what may still be chosen in a term is in the
      log of every later leader. */
  ghost predicate LeaderCompleteness(w: World) {
    forall t1: nat, i: nat, t2: nat :: t1 < t2 && Choosable(w, t1, i) && t2 in w.reigns
      ==> Agree(w.reigns[t1].log, w.reigns[t2].log, i + 1)
  }

  ghost predicate NodesOK(w: World) {
    w.nodes.Keys == w.members && forall n {:trigger NodeOK(w, n, w.nodes[n])} :: n in w.nodes ==> NodeOK(w, n, w.nodes[n])
  }
  ghost predicate MessagesOK(w: World) { forall m {:trigger MessageOK(w, m)} :: m in w.net ==> MessageOK(w, m) }
  ghost predicate ReignsOK(w: World) { forall t {:trigger ReignOK(w, t, w.reigns[t])} :: t in w.reigns ==> ReignOK(w, t, w.reigns[t]) }
  ghost predicate BallotsOK(w: World) {
    forall v, t {:trigger BallotOK(w, v, t, w.ballots[(v, t)])} ::
      (v, t) in w.ballots ==> BallotOK(w, v, t, w.ballots[(v, t)])
  }
  ghost predicate CampaignsOK(w: World) {
    forall c, t {:trigger CampaignOK(w, c, t, w.campaigns[(c, t)])} ::
      (c, t) in w.campaigns ==> CampaignOK(w, c, t, w.campaigns[(c, t)])
  }
  ghost predicate AcksOK(w: World) { forall n, t {:trigger AckOK(w, n, t)} :: (n, t) in w.acks ==> AckOK(w, n, t) }

  ghost predicate Inv(w: World) {
    && NodesOK(w) && MessagesOK(w) && ReignsOK(w) && BallotsOK(w) && CampaignsOK(w) && AcksOK(w)
    && LeaderCompleteness(w)
  }

  // ---- Growth ----

  /** How a step may change the shared history.  An acknowledgement in a term can only rise while
      its node is still in that term. */
  ghost predicate Grows(w: World, w': World) {
    && w'.members == w.members && w'.nodes.Keys == w.nodes.Keys
    && (forall n :: TermOf(w, n) <= TermOf(w', n))
    && (forall t :: t in w.reigns ==>
          && t in w'.reigns && w'.reigns[t].leader == w.reigns[t].leader && w'.reigns[t].voters == w.reigns[t].voters
          && Agree(w.reigns[t].log, w'.reigns[t].log, |w.reigns[t].log|))
    && (forall k :: k in w.ballots ==> k in w'.ballots && w'.ballots[k] == w.ballots[k])
    && (forall k :: k in w.campaigns ==> k in w'.campaigns && w'.campaigns[k] == w.campaigns[k])
    && w.net <= w'.net
    && (forall n, t :: Ack(w, n, t) <= Ack(w', n, t))
    && (forall n, t :: Ack(w, n, t) != Ack(w', n, t) ==> TermOf(w, n) <= t)
  }

  lemma GoodLogGrows(w: World, w': World, log: Log)
    requires Grows(w, w') && GoodLog(w, log)
    ensures GoodLog(w', log)
  {
    forall i | 0 < i < |log| ensures AnchoredAt(w', log, i) {
      assert AnchoredAt(w, log, i);
      assert Agree(w.reigns[log[i].term].log, w'.reigns[log[i].term].log, |w.reigns[log[i].term].log|);
    }
  }

  lemma ChosenGrows(w: World, w': World, t: nat, i: nat)
    requires Grows(w, w') && Chosen(w, t, i)
    ensures Chosen(w', t, i)
  {
    var q :| Stored(w, q, t, i);
    assert Stored(w', q, t, i);
  }

  lemma CoveredGrows(w: World, w': World, t: nat, t': nat, log: Log, log': Log, c: nat)
    requires Grows(w, w') && Covered(w, t, log, c) && t <= t' && Agree(log, log', c + 1)
    ensures Covered(w', t', log', c)
  {
    if c > 0 {
      var t1: nat, i: nat :| t1 <= t && CoveredBy(w, log, c, t1, i);
      ChosenGrows(w, w', t1, i);
      assert CoveredBy(w', log', c, t1, i);
    }
  }

  lemma StableGrows(w: World, w': World, log: Log, log': Log, base: nat)
    requires Grows(w, w') && Stable(w, log, base) && Agree(log, log', base + 1)
    ensures Stable(w', log', base)
  {
    if base > 0 {
      var t :| StableAt(w, log, base, t);
      CoveredGrows(w, w', t, t, w.reigns[t].log, w'.reigns[t].log, base);
      assert StableAt(w', log', base, t);
    }
  }

  /** What may be chosen after a step could be chosen before it, unless it is newly appended. */
  lemma ChoosableShrinks(w: World, w': World, t: nat, i: nat)
    requires Grows(w, w') && Choosable(w', t, i) && t in w.reigns && i < |w.reigns[t].log|
    ensures Choosable(w, t, i)
  {
    var q :| MayStore(w', q, t, i);
    forall p | p in q ensures CanHold(w, p, t, i) {
      assert CanHold(w', p, t, i);
    }
    assert MayStore(w, q, t, i);
  }

  /** An entry appended now in a term older than some elected term can never be chosen: the later
      term's voters have moved on without it. */
  lemma NewEntryBlocked(w: World, w': World, t: nat, i: nat, t2: nat)
    requires Grows(w, w') && ReignsOK(w) && BallotsOK(w) && AcksOK(w)
    requires t2 in w.reigns && t < t2
    requires !(t in w.reigns && i < |w.reigns[t].log|)
    ensures !Choosable(w', t, i)
  {
    if Choosable(w', t, i) {
      var q :| MayStore(w', q, t, i);
      var voters := VotersMovedOn(w, t2);
      var v := MajoritiesMeet(q, voters, w.members);
      AckBound(w, v, t);
      MovedOnWithout(w, w', v, t, i);
    }
  }

  lemma MovedOnWithout(w: World, w': World, v: Id, t: nat, i: nat)
    requires Grows(w, w') && t < TermOf(w, v) && Ack(w, v, t) < i
    ensures !CanHold(w', v, t, i)
  {
  }

  lemma VotersMovedOn(w: World, t: nat) returns (voters: set<Id>)
    requires ReignsOK(w) && BallotsOK(w) && t in w.reigns
    ensures Majority(voters, w.members) && voters == w.reigns[t].voters
    ensures forall v :: v in voters ==> TermOf(w, v) >= t
  {
    voters := w.reigns[t].voters;
    assert ReignOK(w, t, w.reigns[t]);
    forall v | v in voters ensures TermOf(w, v) >= t {
      assert BallotOK(w, v, t, w.ballots[(v, t)]);
    }
  }

  lemma AckBound(w: World, n: Id, t: nat)
    requires AcksOK(w)
    ensures Ack(w, n, t) > 0 ==>
              n in w.members && t in w.reigns && t <= TermOf(w, n) && Ack(w, n, t) < |w.reigns[t].log|
  {
    if (n, t) in w.acks {
      assert AckOK(w, n, t);
    }
  }

  lemma CompletenessGrows(w: World, w': World, t1: nat, i: nat, t2: nat)
    requires Grows(w, w') && ReignsOK(w) && BallotsOK(w) && AcksOK(w) && LeaderCompleteness(w)
    requires t1 < t2 && t2 in w.reigns && Choosable(w', t1, i)
    ensures Choosable(w, t1, i)
    ensures Agree(w'.reigns[t1].log, w'.reigns[t2].log, i + 1)
  {
    if !(t1 in w.reigns && i < |w.reigns[t1].log|) {
      NewEntryBlocked(w, w', t1, i, t2);
    }
    ChoosableShrinks(w, w', t1, i);
    assert Agree(w.reigns[t1].log, w.reigns[t2].log, i + 1);
    assert Agree(w.reigns[t1].log, w'.reigns[t1].log, |w.reigns[t1].log|);
    assert Agree(w.reigns[t2].log, w'.reigns[t2].log, |w.reigns[t2].log|);
  }

  lemma ChosenIsChoosable(w: World, t: nat, i: nat)
    requires Chosen(w, t, i)
    ensures Choosable(w, t, i)
  {
    var q :| Stored(w, q, t, i);
    assert MayStore(w, q, t, i);
  }

  /** If an index may be chosen, so may every lower index of the same term. */
  lemma ChoosableBelow(w: World, t: nat, i: nat, k: nat)
    requires Choosable(w, t, i) && k <= i && OwnEntry(w, t, k)
    ensures Choosable(w, t, k)
  {
    var q :| MayStore(w, q, t, i);
    forall p | p in q ensures CanHold(w, p, t, k) {
      assert CanHold(w, p, t, i);
    }
    assert MayStore(w, q, t, k);
  }

  /** What a node keeps, it still has to keep after a step that leaves its log and acknowledgements
      alone. */
  lemma KeptGrows(w: World, w': World, n: Id, log: Log)
    requires Grows(w, w') && ReignsOK(w) && BallotsOK(w) && AcksOK(w) && Kept(w, n, log)
    requires WellFormed(log) && (forall t :: t in w'.reigns ==> WellFormed(w'.reigns[t].log))
    requires forall t :: Ack(w', n, t) == Ack(w, n, t)
    ensures Kept(w', n, log)
  {
    forall t: nat, t1: nat, i: nat | t1 <= t && t in w'.reigns && Choosable(w', t1, i)
      ensures Agree(w'.reigns[t1].log, log, Least(i, Ack(w', n, t)) + 1)
    {
      if Least(i, Ack(w, n, t)) == 0 {
        assert WellFormed(w'.reigns[t1].log);
      } else {
        AckBound(w, n, t);
        var k := KeptWitness(w, w', Ack(w, n, t), t, t1, i);
        assert Agree(w.reigns[t1].log, log, Least(k, Ack(w, n, t)) + 1);
        assert Agree(w.reigns[t1].log, w'.reigns[t1].log, |w.reigns[t1].log|);
      }
    }
  }

  /** Behind whatever may be chosen after the step, at or above an acknowledged index `a`, there is
      something that could be chosen before it and is as high as far as `a` is concerned. */
  lemma KeptWitness(w: World, w': World, a: nat, t: nat, t1: nat, i: nat) returns (k: nat)
    requires Grows(w, w') && ReignsOK(w) && BallotsOK(w) && AcksOK(w)
    requires t1 <= t && t in w.reigns && a < |w.reigns[t].log| && Choosable(w', t1, i)
    ensures Choosable(w, t1, k) && Least(k, a) == Least(i, a)
  {
    if t1 in w.reigns && i < |w.reigns[t1].log| {
      k := i;
      ChoosableShrinks(w, w', t1, i);
    } else if t1 < t {
      NewEntryBlocked(w, w', t1, i, t);
    } else {
      k := |w.reigns[t].log| - 1;
      LastIsOwn(w, w', t);
      ChoosableBelow(w', t, i, k);
      ChoosableShrinks(w, w', t, k);
    }
  }

  lemma LastIsOwn(w: World, w': World, t: nat)
    requires Grows(w, w') && ReignsOK(w) && t in w.reigns
    ensures |w.reigns[t].log| > 0 && OwnEntry(w', t, |w.reigns[t].log| - 1)
  {
    assert ReignOK(w, t, w.reigns[t]);
    assert Agree(w.reigns[t].log, w'.reigns[t].log, |w.reigns[t].log|);
  }
}
