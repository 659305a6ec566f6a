/** What one request and one answer do to the two nodes, as the dialogue sees it. */
module Effects {
  import opened Wrappers
  import opened RaftTypes
  import opened NodeModel
  import opened Handlers
  import opened Simulation
  import opened CatchUp

  // ---- The leader ----

  /** The base is the only thing that counts here that may change, and then every follower has reached it. */
  ghost predicate OnlyCompacts(cfg: Config, s: Node, s': Node) {
    && s'.log == s.log && s'.term == s.term && s'.matched == s.matched && s'.next == s.next
    && s'.role == s.role && s'.paused == s.paused
    && (s'.base == s.base || forall p :: p in cfg.members && p != cfg.self ==> MatchOf(s, p) >= s'.base)
  }

  lemma SnapshotCompacts(cfg: Config, s: Node)
    requires Shaped(s) && (s.role == Leader ==> s.applied == s.commit)
    ensures var s' := MaybeSnapshot(cfg, s); !s'.failed ==> OnlyCompacts(cfg, s, s')
  {
  }

  lemma AdvanceCompacts(cfg: Config, s: Node)
    requires Shaped(s) && s.role == Leader
    ensures var s' := AdvanceCommit(cfg, s); !s'.failed ==> OnlyCompacts(cfg, s, s')
  {
    if Available(s) && CommitTarget(cfg, s, Last(s)).Some? {
      var s1 := Persist(cfg, s, s.term, s.vote, CommitTarget(cfg, s, Last(s)).value, 0, []);
      ApplyAllKeepsTerm(s1);
      AppliedToCommit(s1);
      SnapshotCompacts(cfg, ApplyAll(s1));
    }
  }

  /** A snapshot is attempted only on a node that has not failed. */
  lemma FailureSticks(cfg: Config, s: Node)
    requires Shaped(s) && (s.role == Leader ==> s.applied == s.commit) && s.failed
    ensures MaybeSnapshot(cfg, s).failed
  {
  }

  lemma LeaderCounts(cfg: Config, l: Node, p: Id, req: AppendRequest, resp: AppendResponse)
    requires Shaped(l) && l.applied == l.commit && l.role == Leader && Available(l)
    requires p in cfg.members && p != cfg.self && l.term == req.term == resp.term && resp.success
    ensures var l', m := HandleAppendResponse(cfg, l, p, req, resp), Max(MatchOf(l, p), req.prevLogIndex + |req.entries|);
            !l'.failed ==>
              && l'.log == l.log && l'.term == l.term && l'.role == Leader && !l'.paused
              && MatchOf(l', p) == m && NextOf(l', p) == m + 1 && l'.base <= Max(l.base, m)
  {
    hide AdvanceCommit, MaybeSnapshot;
    var s := Counted(l, p, req.prevLogIndex + |req.entries|);
    AdvanceCommitSettles(cfg, s);
    var s1 := AdvanceCommit(cfg, s);
    AdvanceCompacts(cfg, s);
    SnapshotCompacts(cfg, s1);
    if s1.failed {
      FailureSticks(cfg, s1);
    }
  }

  lemma LeaderBacksOff(cfg: Config, l: Node, p: Id, req: AppendRequest, resp: AppendResponse)
    requires Shaped(l) && l.applied == l.commit && l.role == Leader && Available(l)
    requires l.term == req.term == resp.term && !resp.success && req.prevLogIndex < |l.log|
    requires req.prevLogIndex == 0 ==> NextIndex(l, p) == 1
    ensures var l' := HandleAppendResponse(cfg, l, p, req, resp);
            && l' == l.(next := l'.next)
            && NextIndex(l', p) == Lowered(req.prevLogIndex, NextIndex(l, p), resp.conflictIndex)
  {
  }

  // ---- The follower ----

  /** The follower as it answers: in the request's term, otherwise unchanged. */
  lemma FollowerFollows(cfg: Config, f: Node, req: AppendRequest)
    requires Savable(f) && Available(f) && Member(cfg, req.leader, req.cluster) && req.term >= f.term
    ensures var s := StepDown(cfg, f, req.term, Some(req.leader));
            && s.term == req.term && s.log == f.log && s.base == f.base && s.role == Follower && !s.paused && !s.failed
            && HandleAppend(cfg, f, req) == Consistent(cfg, s, req)
  {
    StepDownIsChange(cfg, f, req.term, Some(req.leader));
  }

  lemma FollowerRejects(cfg: Config, f: Node, req: AppendRequest)
    requires Savable(f) && Available(f) && Member(cfg, req.leader, req.cluster) && req.term >= f.term
    requires !Meets(f, req)
    ensures var (f', resp, error) := HandleAppend(cfg, f, req);
            && resp == AppendResponse(req.term, false, 0, Conflict(f.log, f.base, req.prevLogIndex))
            && f'.term == req.term && f'.log == f.log && f'.base == f.base && !f'.paused
  {
    FollowerFollows(cfg, f, req);
  }

  // ---- Batches ----

  /** The text of a command, byte by byte. */
  function TextOf(e: Entry): nat {
    if e.command.None? then 0
    else |e.command.value.key| + |e.command.value.value| + |e.command.value.expected| + |e.command.value.clientId|
  }

  function TextsOf(entries: seq<Entry>): nat {
    if entries == [] then 0 else TextOf(entries[0]) + TextsOf(entries[1..])
  }

  /** An upper bound on a message of these entries: 1 KiB for itself and for each entry, and six bytes for each byte of
      text. */
  function MessageBytes(entries: seq<Entry>): nat {
    1024 * (1 + |entries|) + 6 * TextsOf(entries)
  }

  /** A batch from `next` to `end` can take no entry more: the log, its 32 entries or its 15 MiB end there. */
  predicate Filled(log: Log, next: nat, end: nat)
    requires next <= end <= |log|
  {
    end == |log| || end - next == 32 || MessageBytes(log[next..end + 1]) > 15728640
  }

  lemma {:induction false} TextsConcat(a: seq<Entry>, b: seq<Entry>)
    ensures TextsOf(a + b) == TextsOf(a) + TextsOf(b)
  {
    if a == [] {
      assert a + b == b;
    } else {
      TextsConcat(a[1..], b);
      assert (a + b)[1..] == a[1..] + b;
    }
  }

  lemma OneMoreWeighs(log: Log, next: nat, end: nat)
    requires next <= end < |log|
    ensures MessageBytes(log[next..end + 1]) == MessageBytes(log[next..end]) + 1024 + 6 * TextOf(log[end])
  {
    assert log[next..end + 1] == log[next..end] + [log[end]];
    TextsConcat(log[next..end], [log[end]]);
  }

  /** From any fitting start on, a batch takes entries as long as both limits allow, and no longer. */
  lemma {:induction false} BatchFits(log: Log, next: nat, end: nat, bytes: nat)
    requires next <= end <= |log| && end - next <= 32 && bytes == MessageBytes(log[next..end]) <= 15728640
    ensures var r := BatchEnd(log, next, end, bytes);
            r - next <= 32 && MessageBytes(log[next..r]) <= 15728640 && Filled(log, next, r)
    decreases |log| - end
  {
    if end < |log| {
      OneMoreWeighs(log, next, end);
      if BatchEnd(log, next, end, bytes) > end {
        BatchFits(log, next, end + 1, bytes + EntrySize(log[end]));
      }
    }
  }

  /** The limits of a valid command leave room for any one entry. */
  lemma OneEntryFits(log: Log, next: nat)
    requires next < |log| && ValidEntry(log[next])
    ensures BatchEnd(log, next, next, 1024) > next
  {
    assert EntrySize(log[next]) <= 1024 + 6 * (1024 + 2 * 1048576 + 128);
  }

  /** A batch by itself, and without its first entry, which a clamped message leaves out. */
  lemma WholeBatchFits(log: Log, next: nat)
    requires next <= |log|
    ensures var end := BatchEnd(log, next, next, 1024);
            && end - next <= 32 && MessageBytes(log[next..end]) <= 15728640 && Filled(log, next, end)
            && (next < end ==> MessageBytes(log[next + 1..end]) <= 15728640)
  {
    var end := BatchEnd(log, next, next, 1024);
    assert log[next..next] == [];
    BatchFits(log, next, next, 1024);
    if next < end {
      assert log[next..end] == [log[next]] + log[next + 1..end];
      TextsConcat([log[next]], log[next + 1..end]);
    }
  }

  /** So a backlog always yields a batch: at least one entry, at most 32, at most 15 MiB, and as many as these limits
      allow.  (A message clamped to the base may be empty; the next one is not.) */
  lemma BacklogYieldsBatch(cfg: Config, s: Node, p: Id)
    requires Shaped(s) && WellFormed(s.log) && NextIndex(s, p) >= s.base
    ensures var req, next := Prepare(cfg, s, p).value, NextIndex(s, p);
            && Prepare(cfg, s, p).Some? && s.base <= req.prevLogIndex == Max(next - 1, s.base)
            && (next > s.base && req.prevLogIndex < Last(s) ==> 1 <= |req.entries|)
            && |req.entries| <= 32 && MessageBytes(req.entries) <= 15728640
            && (exists end :: next <= end <= |s.log| && Filled(s.log, next, end)
                              && req.entries == if req.prevLogIndex < end then s.log[req.prevLogIndex + 1..end] else [])
  {
    var next := NextIndex(s, p);
    if next < |s.log| {
      OneEntryFits(s.log, next);
    }
    hide WellFormed, BatchEnd, Filled, TextsOf;
    WholeBatchFits(s.log, next);
  }
}
