/** What the handlers answer, field by field, and what an answer of a later term does to the one who asked. */
module Replies {
  import opened Wrappers
  import opened RaftTypes
  import opened NodeModel
  import opened Committing
  import opened Handlers
  import opened Simulation
  import opened Effects

  // ---- AppendEntries ----

  /** The handlers that answer at all: not paused, not failed, and asked by another member. */
  predicate Answers(cfg: Config, s: Node, from: Id, cluster: string) {
    !s.paused && !s.failed && from in cfg.members && from != cfg.self && cluster == cfg.cluster
  }

  /** The index that a rejection names is behind the log, above the base, or the first entry of the conflicting
      term that is not below the base. */
  ghost predicate NamesConflict(s: Node, req: AppendRequest, index: nat)
    requires Shaped(s)
  {
    if req.prevLogIndex >= |s.log| then index == |s.log|
    else if req.prevLogIndex < s.base then index == s.base + 1
    else
      && s.base <= index <= req.prevLogIndex
      && (forall i :: index <= i <= req.prevLogIndex ==> s.log[i].term == s.log[req.prevLogIndex].term)
      && (index > s.base ==> s.log[index - 1].term != s.log[req.prevLogIndex].term)
  }

  lemma {:induction false} ConflictIsFirst(log: Log, base: nat, conflict: nat, prev: nat)
    requires base <= conflict <= prev < |log| && forall i :: conflict <= i <= prev ==> log[i].term == log[prev].term
    ensures var c := ConflictStart(log, base, conflict, log[prev].term);
            && (forall i :: c <= i <= prev ==> log[i].term == log[prev].term)
            && (c > base ==> log[c - 1].term != log[prev].term)
    decreases conflict
  {
    if conflict > base && log[conflict - 1].term == log[prev].term {
      ConflictIsFirst(log, base, conflict - 1, prev);
    }
  }

  /** A refusal of an old leader, a rejection and a success, each with all its fields. */
  lemma AppendAnswers(cfg: Config, s: Node, req: AppendRequest)
    requires Savable(s)
    ensures var (s', resp, error) := HandleAppend(cfg, s, req);
            && resp.term == s'.term
            && (!Available(s) ==> error == NodeUnavailable && s' == s && !resp.success)
            && (Available(s) && !Answers(cfg, s, req.leader, req.cluster) ==> error == UnknownPeer && s' == s && !resp.success)
            && (Answers(cfg, s, req.leader, req.cluster) && req.term < s.term ==>
                  error == NoError && s' == s && resp == AppendResponse(s.term, false, 0, |s.log|))
            && (Answers(cfg, s, req.leader, req.cluster) && req.term >= s.term && !Meets(s, req) ==>
                  && error == NoError && s'.term == req.term && s'.log == s.log && s'.commit == s.commit
                  && !resp.success && resp.matchIndex == 0 && NamesConflict(s, req, resp.conflictIndex))
            && (Answers(cfg, s, req.leader, req.cluster) && req.term >= s.term && Meets(s, req) && error == NoError ==>
                  s'.term == req.term && resp == AppendResponse(req.term, true, req.prevLogIndex + |req.entries|, 0))
            && (error == NoError ==> resp.term >= req.term)
            && (Answers(cfg, s, req.leader, req.cluster) && req.term >= s.term && !s'.failed ==> Follows(s', req))
  {
    if Answers(cfg, s, req.leader, req.cluster) && req.term >= s.term {
      var s1 := StepDown(cfg, s, req.term, Some(req.leader));
      StepDownIsChange(cfg, s, req.term, Some(req.leader));
      FollowerFollows(cfg, s, req);
      hide StepDown, HandleAppend, Consistent;
      ConsistentAnswers(cfg, s1, req);
      if !Meets(s, req) {
        SameConflict(s, s1, req, HandleAppend(cfg, s, req).1.conflictIndex);
      }
    }
  }

  lemma SameConflict(s: Node, s1: Node, req: AppendRequest, index: nat)
    requires Shaped(s) && Shaped(s1) && s1.log == s.log && s1.base == s.base && NamesConflict(s1, req, index)
    ensures NamesConflict(s, req, index)
  {
  }

  /** The same, once the node follows the sender. */
  lemma ConsistentAnswers(cfg: Config, s: Node, req: AppendRequest)
    requires Shaped(s) && Follows(s, req)
    ensures var (s', resp, error) := Consistent(cfg, s, req);
            && resp.term == s'.term == s.term && (!s'.failed ==> Follows(s', req))
            && (if Meets(s, req) then
                  error == NoError ==> resp == AppendResponse(req.term, true, req.prevLogIndex + |req.entries|, 0)
                else
                  error == NoError && s' == s && !resp.success && resp.matchIndex == 0 && NamesConflict(s, req, resp.conflictIndex))
  {
    hide MergeEntries;
    if Meets(s, req) {
      MergeAnswers(cfg, s, req);
      MergeFollows(cfg, s, req);
    } else if s.base <= req.prevLogIndex < |s.log| {
      ConflictIsFirst(s.log, s.base, req.prevLogIndex, req.prevLogIndex);
    }
  }

  /** The node follows the sender in its term. */
  ghost predicate Follows(s: Node, req: AppendRequest) {
    s.role == Follower && s.leader == Some(req.leader) && s.term == req.term
  }

  lemma MergeFollows(cfg: Config, s: Node, req: AppendRequest)
    requires Shaped(s) && Follows(s, req)
    ensures var s' := MergeEntries(cfg, s, req).0; !s'.failed ==> Follows(s', req)
  {
    hide Decide, ApplyLocked, Persist;
    if Decide(s, req).Save? {
      var commit := FollowedCommit(s.commit, req.leaderCommit, req.prevLogIndex + |req.entries|);
      SavingFollows(cfg, s, req, commit, Decide(s, req).from, Decide(s, req).entries);
    }
  }

  lemma SavingFollows(cfg: Config, s: Node, req: AppendRequest, commit: nat, from: nat, entries: seq<Entry>)
    requires Shaped(s) && Follows(s, req)
    ensures var s1 := Persist(cfg, s, s.term, s.vote, commit, from, entries);
            && (!s1.failed ==> Follows(s1, req))
            && (!s1.failed && !ApplyLocked(cfg, s1).failed ==> Follows(ApplyLocked(cfg, s1), req))
  {
    hide ApplyLocked;
    AppliesOnly(cfg, Persist(cfg, s, s.term, s.vote, commit, from, entries));
  }

  /** Entry `i` of a request is numbered as it should be, in a term up to the request's. */
  predicate InPlace(req: AppendRequest, i: nat)
    requires i < |req.entries|
  {
    req.entries[i].index == req.prevLogIndex + 1 + i && 0 < req.entries[i].term <= req.term
  }

  /** The follower compacted it away or has this very entry. */
  predicate Has(s: Node, e: Entry) {
    e.index <= s.base || (e.index < |s.log| && s.log[e.index] == e)
  }

  /** The follower has another term's entry there, or none. */
  predicate Differs(s: Node, e: Entry) {
    e.index > s.base && (e.index >= |s.log| || s.log[e.index].term != e.term)
  }

  ghost predicate FirstAt(s: Node, req: AppendRequest, from: nat, k: nat) {
    from <= k < |req.entries| && forall i :: from <= i < k ==> InPlace(req, i) && Has(s, req.entries[i])
  }

  /** What the scan of a request's entries reports of the first entry that the follower does not have. */
  ghost predicate Reports(s: Node, req: AppendRequest, from: nat, scan: Scan) {
    match scan
    case Same => forall i :: from <= i < |req.entries| ==> InPlace(req, i) && Has(s, req.entries[i])
    case Differ(k) => FirstAt(s, req, from, k) && InPlace(req, k) && Differs(s, req.entries[k])
    case Bad(error) =>
      exists k: nat :: FirstAt(s, req, from, k) &&
        if InPlace(req, k) then
          error == DifferentCommand && !Has(s, req.entries[k]) && !Differs(s, req.entries[k])
        else error == Malformed
  }

  lemma {:induction false} ScanReports(s: Node, req: AppendRequest, from: nat)
    requires Shaped(s) && from <= |req.entries|
    ensures Reports(s, req, from, ScanEntries(s, req, from))
    decreases |req.entries| - from
  {
    hide Reports;
    if from < |req.entries| && InPlace(req, from) && Has(s, req.entries[from]) {
      ScanReports(s, req, from + 1);
      ReportsBefore(s, req, from, ScanEntries(s, req, from + 1));
    } else {
      ReportsHere(s, req, from);
    }
  }

  lemma ReportsBefore(s: Node, req: AppendRequest, from: nat, scan: Scan)
    requires from < |req.entries| && InPlace(req, from) && Has(s, req.entries[from]) && Reports(s, req, from + 1, scan)
    ensures Reports(s, req, from, scan)
  {
    if scan.Bad? {
      var k: nat :| FirstAt(s, req, from + 1, k) &&
        if InPlace(req, k) then scan.error == DifferentCommand && !Has(s, req.entries[k]) && !Differs(s, req.entries[k])
        else scan.error == Malformed;
      assert FirstAt(s, req, from, k);
    }
  }

  lemma ReportsHere(s: Node, req: AppendRequest, from: nat)
    requires Shaped(s) && from <= |req.entries|
    requires from < |req.entries| ==> !InPlace(req, from) || !Has(s, req.entries[from])
    ensures Reports(s, req, from, ScanEntries(s, req, from))
  {
    if from < |req.entries| {
      assert FirstAt(s, req, from, from);
    }
  }

  function Highest(a: nat, b: nat): nat { if a > b then a else b }
  function Lowest(a: nat, b: nat): nat { if a < b then a else b }

  /** What a successful request leaves of the follower's log and commit index.  A log that has all the entries is not
      cut, even if it goes on behind them; any other is cut where it first differs. */
  ghost predicate Takes(s: Node, s': Node, req: AppendRequest) {
    && s'.commit == Highest(s.commit, Lowest(req.leaderCommit, req.prevLogIndex + |req.entries|))
    && if forall i :: 0 <= i < |req.entries| ==> Has(s, req.entries[i]) then s'.log == s.log
       else exists k: nat :: FirstAt(s, req, 0, k) && Differs(s, req.entries[k]) && req.prevLogIndex + 1 + k <= |s.log|
                             && s'.log == s.log[..req.prevLogIndex + 1 + k] + req.entries[k..]
  }

  lemma MergeTakes(cfg: Config, s: Node, req: AppendRequest)
    requires Shaped(s) && s.base <= req.prevLogIndex < |s.log|
    ensures var (s', _, error) := MergeEntries(cfg, s, req); error == NoError ==> Takes(s, s', req)
  {
    ScanReports(s, req, 0);
    ScanStaysInside(s, req);
    hide ScanEntries, Reports, MergeEntries;
    MergeWrites(cfg, s, req);
    if MergeEntries(cfg, s, req).2 == NoError {
      ReportedIsTaken(s, MergeEntries(cfg, s, req).0, req, ScanEntries(s, req, 0));
    }
  }

  /** What a scan that found nothing wrong makes of the log and the commit index. */
  ghost predicate WrittenBy(s: Node, s': Node, req: AppendRequest, scan: Scan) {
    && !scan.Bad? && s'.commit == FollowedCommit(s.commit, req.leaderCommit, req.prevLogIndex + |req.entries|)
    && if scan.Differ? then
         && req.prevLogIndex + 1 + scan.at <= |s.log| && scan.at <= |req.entries|
         && s'.log == s.log[..req.prevLogIndex + 1 + scan.at] + req.entries[scan.at..]
       else s'.log == s.log
  }

  lemma MergeWrites(cfg: Config, s: Node, req: AppendRequest)
    requires Shaped(s) && (ScanEntries(s, req, 0).Differ? ==> req.prevLogIndex + 1 + ScanEntries(s, req, 0).at <= |s.log|)
    ensures var (s', _, error) := MergeEntries(cfg, s, req); error == NoError ==> WrittenBy(s, s', req, ScanEntries(s, req, 0))
  {
    hide ScanEntries, Merged, FollowedCommit;
    if Decide(s, req).Save? {
      MergedWrites(cfg, s, FollowedCommit(s.commit, req.leaderCommit, req.prevLogIndex + |req.entries|),
                   Decide(s, req).from, Decide(s, req).entries, req.prevLogIndex + |req.entries|);
    }
  }

  lemma MergedWrites(cfg: Config, s: Node, commit: nat, from: nat, entries: seq<Entry>, matched: nat)
    requires Shaped(s)
    ensures var (s', _, error) := Merged(cfg, s, commit, from, entries, matched);
            error == NoError ==>
              && s'.commit == commit && (from != 0 ==> from <= |s.log|)
              && s'.log == if from != 0 then s.log[..from] + entries else s.log
  {
    hide Persist, ApplyLocked;
    PersistWrites(cfg, s, commit, from, entries);
    AppliesOnly(cfg, Persist(cfg, s, s.term, s.vote, commit, from, entries));
  }

  lemma ReportedIsTaken(s: Node, s': Node, req: AppendRequest, scan: Scan)
    requires Reports(s, req, 0, scan) && WrittenBy(s, s', req, scan)
    ensures Takes(s, s', req)
  {
  }

  lemma ScanStaysInside(s: Node, req: AppendRequest)
    requires Shaped(s) && req.prevLogIndex < |s.log|
    ensures var scan := ScanEntries(s, req, 0); scan.Differ? ==> req.prevLogIndex + 1 + scan.at <= |s.log|
  {
    hide ScanEntries;
  }

  lemma PersistWrites(cfg: Config, s: Node, commit: nat, from: nat, entries: seq<Entry>)
    requires Shaped(s)
    ensures var s1 := Persist(cfg, s, s.term, s.vote, commit, from, entries);
            !s1.failed ==>
              && s1.commit == commit && (from != 0 ==> from <= |s.log|)
              && s1.log == if from != 0 then s.log[..from] + entries else s.log
  {
  }

  lemma MergeAnswers(cfg: Config, s: Node, req: AppendRequest)
    requires Shaped(s)
    ensures var (s', resp, error) := MergeEntries(cfg, s, req);
            && resp.term == s'.term == s.term
            && (error == NoError ==> resp == AppendResponse(s.term, true, req.prevLogIndex + |req.entries|, 0))
            && (error != NoError ==> !resp.success)
  {
    hide ScanEntries, ApplyLocked, Persist;
    if Decide(s, req).Save? {
      var commit := FollowedCommit(s.commit, req.leaderCommit, req.prevLogIndex + |req.entries|);
      SavingKeepsTerm(cfg, s, commit, Decide(s, req).from, Decide(s, req).entries);
    }
  }

  /** A request that no genuine leader sends changes nothing: neither one whose entries are wrong, nor one that would
      overwrite what is committed. */
  lemma GuardsRefuse(cfg: Config, s: Node, req: AppendRequest)
    requires Shaped(s)
    ensures var (s', resp, error) := MergeEntries(cfg, s, req);
            match ScanEntries(s, req, 0)
            case Bad(wrong) => error == wrong && s' == s && !resp.success
            case Differ(k) =>
              if req.prevLogIndex + 1 + k <= s.commit then error == OverwriteCommitted && s' == s && !resp.success
              else error == NoError || (error == NodeUnavailable && s'.failed)
            case Same => error == NoError || (error == NodeUnavailable && s'.failed)
  {
    hide ScanEntries, Persist, ApplyLocked;
  }

  lemma SavingKeepsTerm(cfg: Config, s: Node, commit: nat, from: nat, entries: seq<Entry>)
    requires Shaped(s)
    ensures var s1 := Persist(cfg, s, s.term, s.vote, commit, from, entries);
            s1.term == s.term && ApplyLocked(cfg, s1).term == s.term
  {
    hide ApplyLocked;
    AppliesOnly(cfg, Persist(cfg, s, s.term, s.vote, commit, from, entries));
  }

  /** An answer from a later term deposes whoever asked. */
  lemma LaterAnswerDeposes(cfg: Config, s: Node, from: Id, req: AppendRequest, resp: AppendResponse)
    requires Savable(s) && Available(s) && s.applied == s.commit && resp.term > s.term
    ensures Deposed(s, HandleAppendResponse(cfg, s, from, req, resp), resp.term)
  {
    StepDownIsChange(cfg, s, resp.term, None);
  }

  /** The node has moved to `term` as a follower that knows no leader and has not voted; its log is untouched. */
  ghost predicate Deposed(s: Node, s': Node, term: nat) {
    && s'.role == Follower && s'.term == term && s'.vote == None && s'.leader == None && s'.pending == map[]
    && s'.log == s.log && s'.commit == s.commit && s'.base == s.base && s'.machine == s.machine && !s'.failed
  }

  /** A deposed leader that goes on sending learns of the later term and steps down. */
  lemma OldLeaderStepsDown(cfg: Config, f: Node, req: AppendRequest, leaders: Config, l: Node, from: Id)
    requires Savable(f) && Answers(cfg, f, req.leader, req.cluster) && req.term < f.term
    requires Savable(l) && Available(l) && l.applied == l.commit && l.term <= req.term
    ensures var (f', resp, error) := HandleAppend(cfg, f, req);
            f' == f && error == NoError && Deposed(l, HandleAppendResponse(leaders, l, from, req, resp), f.term)
  {
    AppendAnswers(cfg, f, req);
    LaterAnswerDeposes(leaders, l, from, req, HandleAppend(cfg, f, req).1);
  }

  // ---- RequestVote ----

  predicate AsGood(s: Node, req: VoteRequest)
    requires Shaped(s)
  {
    var last := s.log[|s.log| - 1];
    req.lastLogTerm > last.term || (req.lastLogTerm == last.term && req.lastLogIndex >= |s.log| - 1)
  }

  /** A vote is granted exactly to a candidate of this term or a later one whose log is as good, if the node has no
      vote in that term yet or gave it to this very candidate; and every answer carries the node's term. */
  lemma VoteAnswers(cfg: Config, s: Node, req: VoteRequest)
    requires Savable(s)
    ensures var (s', resp, error) := HandleVote(cfg, s, req);
            && resp.term == s'.term
            && (!Available(s) ==> error == NodeUnavailable && s' == s && !resp.granted)
            && (Available(s) && !Answers(cfg, s, req.candidate, req.cluster) ==> error == UnknownPeer && s' == s && !resp.granted)
            && (Answers(cfg, s, req.candidate, req.cluster) ==>
                  && error == NoError && !s'.failed
                  && s'.term == (if req.term > s.term then req.term else s.term)
                  && (resp.granted <==>
                        req.term >= s.term && AsGood(s, req) && (req.term > s.term || s.vote == None || s.vote == Some(req.candidate)))
                  && s'.vote == (if resp.granted then Some(req.candidate) else if req.term > s.term then None else s.vote)
                  && (if req.term > s.term then s'.role == Follower && s'.leader == None
                      else s'.role == s.role && s'.leader == s.leader)
                  && s'.log == s.log && s'.commit == s.commit)
  {
    hide Persist, Crashed;
    if Answers(cfg, s, req.candidate, req.cluster) && req.term >= s.term {
      var s1 := if req.term > s.term then StepDown(cfg, s, req.term, None) else s;
      if req.term > s.term {
        StepDownIsChange(cfg, s, req.term, None);
      }
      if s1.vote == None {
        HardStateSaves(cfg, s1, req.term, Some(req.candidate), s1.commit);
      }
    }
  }

  /** What a candidate makes of a vote: a later term deposes it, a vote of its own term counts, a majority of votes
      makes it leader, and anything else is ignored. */
  lemma VoteCounts(cfg: Config, s: Node, from: Id, req: VoteRequest, resp: VoteResponse)
    requires Savable(s) && Available(s) && (s.role == Candidate ==> s.term > 0)
    ensures var s' := HandleVoteResponse(cfg, s, from, req, resp);
            if resp.term > s.term then Deposed(s, s', resp.term)
            else if s.role != Candidate || s.term != req.term || resp.term != s.term || !resp.granted then s' == s
            else
              if 2 * |s.votes + {from}| <= |cfg.members| then s' == s.(votes := s.votes + {from})
              else !s'.failed ==> LeadsFrom(cfg, s, s')
  {
    if resp.term > s.term {
      StepDownIsChange(cfg, s, resp.term, None);
    } else if s.role == Candidate {
      WinnerLeads(cfg, s.(votes := s.votes + {from}));
    }
  }

  /** The leader of the same term, with its opening entry behind the log it was elected with. */
  ghost predicate LeadsFrom(cfg: Config, s: Node, s': Node) {
    && s'.role == Leader && s'.leader == Some(cfg.self) && s'.term == s.term && s'.vote == s.vote
    && s'.log == s.log + [Entry(|s.log|, s.term, None)]
  }

  lemma WinnerLeads(cfg: Config, s: Node)
    requires Savable(s) && Available(s) && s.term > 0
    ensures var s' := BecomeLeader(cfg, s); !s'.failed ==> LeadsFrom(cfg, s, s')
  {
    hide LeaderAppend, BecomeLeader, AdvanceCommit;
    OwnEntrySaves(cfg, Crowned(cfg, s), None);
    OpeningEntryElects(cfg, s);
    AdvancesTo(cfg, Elected(cfg, s));
  }

  /** A candidate that asks a node of a later term learns of that term and steps down. */
  lemma OldCandidateStepsDown(cfg: Config, v: Node, req: VoteRequest, candidates: Config, c: Node, from: Id)
    requires Savable(v) && Answers(cfg, v, req.candidate, req.cluster) && req.term < v.term
    requires Savable(c) && Available(c) && c.term <= req.term && (c.role == Candidate ==> c.term > 0)
    ensures var (v', resp, error) := HandleVote(cfg, v, req);
            && v'.term == v.term && v'.vote == v.vote && !resp.granted && error == NoError
            && Deposed(c, HandleVoteResponse(candidates, c, from, req, resp), v.term)
  {
    VoteAnswers(cfg, v, req);
    VoteCounts(candidates, c, from, req, HandleVote(cfg, v, req).1);
  }
}
