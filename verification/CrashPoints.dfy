/** What the handlers have told their clients and left on disk, write by write.  A crash, or a write that fails, can
    fall at any write of a handler; these are the moments a handler goes through, from the one it starts with on. */
module CrashPoints {
  import opened Wrappers
  import opened RaftTypes
  import opened NodeModel
  import SM = StateMachine
  import St = Store

  /** What the disk holds of a node. */
  function HardState(s: Node): St.Stored
    requires Shaped(s)
  {
    St.Stored(Disk(s), s.snapshot)
  }

  /** The node in memory, with all that its clients were told, and what is on its disk by then. */
  datatype Moment = Moment(node: Node, disk: St.Stored)

  function NoWrite(s: Node): set<Moment>
    requires Shaped(s)
  {
    {Moment(s, HardState(s))}
  }

  /** A write that turns `before` into `after`: it has reached the disk or not, and memory does not know yet. */
  function OneWrite(before: Node, after: Node): set<Moment>
    requires Shaped(before) && Shaped(after)
  {
    {Moment(before, HardState(before)), Moment(before, HardState(after))}
  }

  ghost predicate OnDiskIn(moments: set<Moment>, disk: St.Stored) {
    exists m :: m in moments && m.disk == disk
  }

  /** The states that a store's disk went through since it was `was`, and the one it was in, are among those of
      `moments`. */
  ghost predicate Passes(was: seq<St.Stored>, now: seq<St.Stored>, moments: set<Moment>) {
    |was| > 0 && was <= now && forall i :: |was| - 1 <= i < |now| ==> OnDiskIn(moments, now[i])
  }

  /** One write, landed or not. */
  lemma PassesOne(was: seq<St.Stored>, now: seq<St.Stored>, before: Node, after: Node)
    requires Shaped(before) && Shaped(after) && |was| > 0 && was[|was| - 1] == HardState(before)
    requires now == was || now == was + [HardState(after)]
    ensures Passes(was, now, OneWrite(before, after))
  {
    hide HardState, Shaped;
    var all := OneWrite(before, after);
    assert Moment(before, HardState(before)) in all && Moment(before, HardState(after)) in all;
  }

  lemma PassesNone(was: seq<St.Stored>, s: Node, all: set<Moment>)
    requires Shaped(s) && |was| > 0 && was[|was| - 1] == HardState(s) && Moment(s, HardState(s)) in all
    ensures Passes(was, was, all)
  {
  }

  lemma PassesMore(a: seq<St.Stored>, b: seq<St.Stored>, moments: set<Moment>, all: set<Moment>)
    requires Passes(a, b, moments) && moments <= all
    ensures Passes(a, b, all)
  {
    forall i | |a| - 1 <= i < |b| ensures OnDiskIn(all, b[i]) {
      assert OnDiskIn(moments, b[i]);
    }
  }

  lemma PassesOn(a: seq<St.Stored>, b: seq<St.Stored>, c: seq<St.Stored>, moments: set<Moment>, more: set<Moment>, all: set<Moment>)
    requires Passes(a, b, moments) && Passes(b, c, more) && moments + more <= all
    ensures Passes(a, c, all)
  {
    PassesMore(a, b, moments, all);
    PassesMore(b, c, more, all);
    hide OnDiskIn;
    forall i | |a| - 1 <= i < |c| ensures OnDiskIn(all, c[i]) {
      assert i < |b| ==> c[i] == b[i];
    }
  }

  // ---- The handlers' pieces ----

  ghost function StepDownMoments(cfg: Config, s: Node, term: nat, leader: Option<Id>): set<Moment>
    requires Shaped(s) && !s.failed
  {
    OneWrite(s, StepDown(cfg, s, term, leader))
  }

  /** The commit index is saved before anything is applied; the checkpoint is taken when everything is, and the
      waiters have their answers. */
  ghost function AdvanceMoments(cfg: Config, s: Node): set<Moment>
    requires Shaped(s)
  {
    if s.role != Leader || !Available(s) || CommitTarget(cfg, s, Last(s)).None? then NoWrite(s)
    else CommitMoments(cfg, s, CommitTarget(cfg, s, Last(s)).value)
  }

  ghost function CommitMoments(cfg: Config, s: Node, i: nat): set<Moment>
    requires Shaped(s)
  {
    var s1 := Persist(cfg, s, s.term, s.vote, i, 0, []);
    OneWrite(s, s1) + if s1.failed then {} else OneWrite(ApplyAll(s1), ApplyLocked(cfg, s1))
  }

  ghost function LeadMoments(cfg: Config, s: Node): set<Moment>
    requires Shaped(s)
  {
    var s1 := LeaderAppend(cfg, Crowned(cfg, s), None);
    OneWrite(Crowned(cfg, s), s1)
    + if s1.failed then {} else AdvanceMoments(cfg, s1.(matched := s1.matched[cfg.self := Last(s1)]))
  }

  ghost function ElectionMoments(cfg: Config, s: Node): set<Moment>
    requires Shaped(s)
  {
    var s1 := Campaigning(cfg, s);
    OneWrite(s, s1) + if !s1.failed && |s1.votes| > |cfg.members| / 2 then LeadMoments(cfg, s1) else {}
  }

  // ---- The handlers ----

  /** Tick, when the election timer has expired. */
  ghost function TimeoutMoments(cfg: Config, s: Node): set<Moment>
    requires Shaped(s)
  {
    if !Available(s) || s.role == Leader then NoWrite(s) else ElectionMoments(cfg, s)
  }

  /** RequestVote: the bump of the term, then the vote. */
  ghost function VoteMoments(cfg: Config, s: Node, req: VoteRequest): set<Moment>
    requires Shaped(s)
  {
    if !Available(s) || !Member(cfg, req.candidate, req.cluster) || req.term < s.term then NoWrite(s)
    else
      var s1 := if req.term > s.term then StepDown(cfg, s, req.term, None) else s;
      OneWrite(s, s1) + if s1.failed then {} else OneWrite(s1, DecideVote(cfg, s1, req).0)
  }

  /** voteResponseLocked */
  ghost function VoteReplyMoments(cfg: Config, s: Node, from: Id, req: VoteRequest, resp: VoteResponse): set<Moment>
    requires Shaped(s)
  {
    if !Available(s) then NoWrite(s)
    else if resp.term > s.term then StepDownMoments(cfg, s, resp.term, None)
    else if s.role != Candidate || s.term != req.term || resp.term != req.term || !resp.granted
            || |s.votes + {from}| <= |cfg.members| / 2 then NoWrite(s)
    else LeadMoments(cfg, s.(votes := s.votes + {from}))
  }

  /** AppendEntries: the bump of the term, then the entries and the commit index together. */
  ghost function AppendMoments(cfg: Config, s: Node, req: AppendRequest): set<Moment>
    requires Shaped(s)
  {
    if !Available(s) || !Member(cfg, req.leader, req.cluster) || req.term < s.term then NoWrite(s)
    else
      var s1 := StepDown(cfg, s, req.term, Some(req.leader));
      OneWrite(s, s1) + if s1.failed then {} else OneWrite(s1, Consistent(cfg, s1, req).0)
  }

  /** acceptAppendLocked: the commit index, and at most two checkpoints. */
  ghost function AppendReplyMoments(cfg: Config, s: Node, from: Id, req: AppendRequest, resp: AppendResponse): set<Moment>
    requires Shaped(s) && s.applied == s.commit
  {
    if !Available(s) then NoWrite(s)
    else if resp.term > s.term then StepDownMoments(cfg, s, resp.term, None)
    else if s.role != Leader || s.term != req.term || resp.term != req.term || !resp.success then NoWrite(s)
    else
      var s0 := Counted(s, from, req.prevLogIndex + |req.entries|);
      AdvanceMoments(cfg, s0) + OneWrite(AdvanceCommit(cfg, s0), HandleAppendResponse(cfg, s, from, req, resp))
  }

  /** submitLocked: the proposal, then the commit index, then the checkpoint. */
  ghost function SubmitMoments(cfg: Config, s: Node, command: Option<SM.Command>, readKey: Option<SM.Text>, ticket: nat): set<Moment>
    requires Shaped(s)
  {
    if !Available(s) || s.role != Leader || (command.Some? && !SM.ValidCommand(command.value)) || Last(s) - s.commit >= 256
    then NoWrite(s) else ProposalMoments(cfg, s, command, readKey, ticket)
  }

  ghost function ProposalMoments(cfg: Config, s: Node, command: Option<SM.Command>, readKey: Option<SM.Text>, ticket: nat): set<Moment>
    requires Shaped(s)
  {
    var s1 := LeaderAppend(cfg, s, command);
    OneWrite(s, s1) + if s1.failed then {} else AdvanceMoments(cfg, Registered(cfg, s1, Waiter(ticket, readKey)))
  }

  // ---- What leaves the disk alone ----

  lemma CrashKeeps(s: Node)
    requires Shaped(s)
    ensures HardState(Crashed(s)) == HardState(s)
  {
  }

  lemma StepDownKeeps(cfg: Config, s: Node, term: nat, leader: Option<Id>)
    requires Shaped(s) && !s.failed
    ensures HardState(StepDown(cfg, s, term, leader))
         == HardState(if term > s.term then Persist(cfg, s, term, None, s.commit, 0, []) else s)
  {
    hide Persist;
  }

  lemma CampaignKeeps(cfg: Config, s: Node)
    requires Shaped(s)
    ensures HardState(Campaigning(cfg, s)) == HardState(Persist(cfg, s, s.term + 1, Some(cfg.self), s.commit, 0, []))
  {
    hide Persist;
  }

  lemma ApplyingKeeps(s: Node)
    requires Shaped(s)
    ensures HardState(ApplyAll(s)) == HardState(s) && ApplyAll(s).failed == s.failed
  {
    ApplyAllKeepsTerm(s);
  }

  /** What a follower merges is on disk once it is saved. */
  lemma MergedKeeps(cfg: Config, s: Node, commit: nat, from: nat, entries: seq<Entry>, matched: nat)
    requires Shaped(s) && s.role != Leader && (from != 0 || commit != s.commit)
    ensures var s1 := Persist(cfg, s, s.term, s.vote, commit, from, entries);
            OneWrite(s, Merged(cfg, s, commit, from, entries, matched).0) == OneWrite(s, s1)
  {
    var s1 := Persist(cfg, s, s.term, s.vote, commit, from, entries);
    FollowerApplies(cfg, s1);
  }

  /** A node that does not lead applies without writing. */
  lemma FollowerApplies(cfg: Config, s: Node)
    requires Shaped(s) && s.role != Leader
    ensures HardState(ApplyLocked(cfg, s)) == HardState(s) && ApplyLocked(cfg, s).failed == s.failed
  {
    ApplyAllKeepsTerm(s);
  }
}
