/** The durable store (internal/raft/store.go): a journal of validated records whose replay is the
    node's hard state. */
module Store {
  import opened Wrappers
  import opened RaftTypes
  import SM = StateMachine

  /** Hard state.  `log[0]` is the entry at index `base`; everything below it was compacted away. */
  datatype DurableState = DurableState(term: nat, vote: Option<Id>, commit: nat, base: nat, log: Log)
  datatype Checkpoint = Checkpoint(
    index: nat, term: nat, machine: SM.State, raftTerm: nat, vote: Option<Id>, commit: nat, log: Log)
  datatype Record = Record(
    identity: string, term: nat, vote: Option<Id>, commit: nat, from: nat, entries: seq<Entry>,
    checkpoint: Option<Checkpoint>)
  datatype Stored = Stored(state: DurableState, snapshot: SM.State)

  datatype StoreError =
    | InvalidCheckpoint | WrongIdentity | Regressed | VoteChanged | CommittedOrGap | InvalidEntry
    | InvalidCommand | EntriesWithoutIndex | CommitExceedsLog | WriteFailed

  const EMPTY := Stored(DurableState(0, None, 0, 0, [SENTINEL]), SM.EMPTY_STATE)

  /** The shape every store state has; indexing by `entry` relies on it. */
  predicate Shaped(st: DurableState) {
    |st.log| > 0 && st.base <= st.commit < st.base + |st.log|
  }

  function LastIndex(st: DurableState): nat
    requires Shaped(st)
  {
    st.base + |st.log| - 1
  }

  function EntryAt(st: DurableState, index: nat): Entry
    requires Shaped(st) && st.base <= index <= LastIndex(st)
  {
    st.log[index - st.base]
  }

  /** The first objection to entries that are to follow an entry of term `previous` at `first - 1`. */
  function EntriesError(entries: seq<Entry>, first: nat, maxTerm: nat, previous: nat): Option<StoreError>
    decreases |entries|
  {
    if entries == [] then None
    else if entries[0].index != first || entries[0].term == 0 || entries[0].term > maxTerm || entries[0].term < previous
      then Some(InvalidEntry)
    else if !ValidEntry(entries[0]) then Some(InvalidCommand)
    else EntriesError(entries[1..], first + 1, maxTerm, entries[0].term)
  }

  /** Entries pass exactly when they are numbered from `first`, have valid commands, and their terms
      are positive, at most `maxTerm`, and never decrease from `previous` on. */
  lemma {:induction false} EntriesPass(entries: seq<Entry>, first: nat, maxTerm: nat, previous: nat)
    ensures EntriesError(entries, first, maxTerm, previous).None? <==>
      && (forall i :: 0 <= i < |entries| ==>
            && entries[i].index == first + i && 0 < entries[i].term <= maxTerm
            && previous <= entries[i].term && ValidEntry(entries[i]))
      && (forall i, j :: 0 <= i <= j < |entries| ==> entries[i].term <= entries[j].term)
    decreases |entries|
  {
    if entries != [] {
      var rest := entries[1..];
      EntriesPass(rest, first + 1, maxTerm, entries[0].term);
      if EntriesError(entries, first, maxTerm, previous).None? {
        forall i | 0 <= i < |entries|
          ensures && entries[i].index == first + i && 0 < entries[i].term <= maxTerm
                  && previous <= entries[i].term && ValidEntry(entries[i])
        {
          if i > 0 {
            assert entries[i] == rest[i - 1];
          }
        }
        forall i, j | 0 <= i <= j < |entries| ensures entries[i].term <= entries[j].term {
          if i > 0 {
            assert entries[i] == rest[i - 1] && entries[j] == rest[j - 1];
          } else if j > 0 {
            assert entries[j] == rest[j - 1];
          }
        }
      } else if EntriesError(rest, first + 1, maxTerm, entries[0].term).None? {
        assert entries[0] == entries[0];
      } else if forall i :: 0 <= i < |entries| ==> entries[i].index == first + i && 0 < entries[i].term <= maxTerm
                                                   && previous <= entries[i].term && ValidEntry(entries[i]) {
        assert forall i :: 0 <= i < |rest| ==> rest[i] == entries[i + 1];
      }
    }
  }

  /** The first objection `validate` raises to a record, if any. */
  function Objection(st: DurableState, identity: string, r: Record): Option<StoreError>
    requires Shaped(st)
  {
    match r.checkpoint
    case Some(c) =>
      if r.identity != identity || r.term != 0 || r.vote != None || r.commit != 0 || r.from != 0 || r.entries != [] then
        Some(InvalidCheckpoint)
      else if c.index < st.base || c.commit < c.index || c.raftTerm < st.term || c.commit < st.commit || c.log == []
              || c.log[0].index != c.index || c.log[0].term != c.term then
        Some(InvalidCheckpoint)
      else if !SM.ValidState(c.machine) then Some(InvalidCommand)
      else if EntriesError(c.log[1..], c.index + 1, c.raftTerm, c.term).Some? then
        EntriesError(c.log[1..], c.index + 1, c.raftTerm, c.term)
      else if c.commit > c.index + (|c.log| - 1) then Some(CommitExceedsLog)
      else None
    case None =>
      if r.identity != identity then Some(WrongIdentity)
      else if r.term < st.term || r.commit < st.commit then Some(Regressed)
      else if r.term == st.term && st.vote.Some? && r.vote != st.vote then Some(VoteChanged)
      else if r.from != 0 then
        if r.from <= st.commit || r.from > st.base + |st.log| then Some(CommittedOrGap)
        else
          var entriesError := EntriesError(r.entries, r.from, r.term, EntryAt(st, r.from - 1).term);
          if entriesError.Some? then entriesError
          else if r.commit >= r.from + |r.entries| then Some(CommitExceedsLog)
          else None
      else if r.entries != [] then Some(EntriesWithoutIndex)
      else if r.commit >= st.base + |st.log| then Some(CommitExceedsLog)
      else None
  }

  /** The store after accepting a record. */
  function Accepted(s: Stored, r: Record): Stored
    requires Shaped(s.state)
    requires r.from != 0 ==> s.state.base <= r.from <= s.state.base + |s.state.log|
  {
    match r.checkpoint
    case Some(c) => Stored(DurableState(c.raftTerm, c.vote, c.commit, c.index, c.log), c.machine)
    case None =>
      var log := if r.from != 0 then s.state.log[..r.from - s.state.base] + r.entries else s.state.log;
      s.(state := s.state.(term := r.term, vote := r.vote, commit := r.commit, log := log))
  }

  /** A valid record is applicable and leaves a well-shaped state. */
  lemma AcceptedIsShaped(s: Stored, identity: string, r: Record)
    requires Shaped(s.state) && Objection(s.state, identity, r) == None
    ensures r.from != 0 ==> s.state.base <= r.from <= s.state.base + |s.state.log|
    ensures Shaped(Accepted(s, r).state)
  {
  }

  /** Replays a journal from the empty store; None as soon as a record is rejected. */
  function Replay(identity: string, records: seq<Record>): (s: Option<Stored>)
    ensures s.Some? ==> Shaped(s.value.state)
    decreases |records|
  {
    if records == [] then Some(EMPTY)
    else
      match Replay(identity, records[..|records| - 1])
      case None => None
      case Some(s) =>
        var r := records[|records| - 1];
        if Objection(s.state, identity, r).Some? then None
        else AcceptedIsShaped(s, identity, r); Some(Accepted(s, r))
  }
}
