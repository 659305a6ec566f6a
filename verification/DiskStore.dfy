/** The journalled store as an object (internal/raft/store.go): what it holds in memory is always what a
    replay of its journal gives, and a failed write leaves the journal at the state before or after. */
module DiskStore {
  import opened Wrappers
  import opened RaftTypes
  import opened Store
  import SM = StateMachine

  // ---- What records do to the state ----

  /** The entries through `k` of both logs that neither has compacted away are the same. */
  ghost predicate SameThrough(a: DurableState, b: DurableState, k: nat)
    requires Shaped(a) && Shaped(b)
  {
    forall i: nat :: a.base <= i <= k && b.base <= i && i <= LastIndex(a) && i <= LastIndex(b) ==> EntryAt(a, i) == EntryAt(b, i)
  }

  /** Term, commit and base never regress, a vote cast in a term stays, and no committed entry changes. */
  ghost predicate Advances(a: DurableState, b: DurableState) {
    && Shaped(a) && Shaped(b)
    && a.term <= b.term && a.commit <= b.commit && a.base <= b.base
    && (a.term == b.term && a.vote.Some? ==> b.vote == a.vote)
    && SameThrough(a, b, a.commit)
  }

  /** The record that `checkpoint` writes for index `index`. */
  function CheckpointAt(st: DurableState, identity: string, machine: SM.State, index: nat): Record
    requires Shaped(st) && st.base <= index <= LastIndex(st)
  {
    Record(identity, 0, None, 0, 0, [],
      Some(Checkpoint(index, EntryAt(st, index).term, machine, st.term, st.vote, st.commit, st.log[index - st.base..])))
  }

  /** The record that `save` writes. */
  function SaveRecord(identity: string, term: nat, vote: Option<Id>, commit: nat, from: nat, entries: seq<Entry>): Record {
    Record(identity, term, vote, commit, from, entries, None)
  }

  /** A record the store itself writes when its state is `s`. */
  ghost predicate Writes(s: Stored, identity: string, r: Record)
    requires Shaped(s.state)
  {
    && Objection(s.state, identity, r) == None
    && (r.checkpoint.None? ||
        exists machine, index: nat ::
          s.state.base < index <= s.state.commit && r == CheckpointAt(s.state, identity, machine, index))
  }

  lemma SaveAdvances(s: Stored, identity: string, r: Record)
    requires Shaped(s.state) && Objection(s.state, identity, r) == None && r.checkpoint.None?
    ensures r.from != 0 ==> s.state.base <= r.from <= s.state.base + |s.state.log|
    ensures Advances(s.state, Accepted(s, r).state)
  {
    AcceptedIsShaped(s, identity, r);
  }

  lemma CheckpointAdvances(s: Stored, identity: string, machine: SM.State, index: nat)
    requires Shaped(s.state) && s.state.base < index <= s.state.commit
    ensures Advances(s.state, Accepted(s, CheckpointAt(s.state, identity, machine, index)).state)
  {
  }

  lemma WriteAdvances(s: Stored, identity: string, r: Record)
    requires Shaped(s.state) && Writes(s, identity, r)
    ensures r.from != 0 ==> s.state.base <= r.from <= s.state.base + |s.state.log|
    ensures Advances(s.state, Accepted(s, r).state)
  {
    if r.checkpoint.None? {
      SaveAdvances(s, identity, r);
    } else {
      var machine, index: nat :|
        s.state.base < index <= s.state.commit && r == CheckpointAt(s.state, identity, machine, index);
      CheckpointAdvances(s, identity, machine, index);
    }
  }

  lemma AdvancesTransitive(a: DurableState, b: DurableState, c: DurableState)
    requires Advances(a, b) && Advances(b, c)
    ensures Advances(a, c)
  {
    forall i: nat | a.base <= i <= a.commit && c.base <= i && i <= LastIndex(a) && i <= LastIndex(c)
      ensures EntryAt(a, i) == EntryAt(c, i)
    {
      assert b.base <= i <= b.commit <= LastIndex(b);
      assert EntryAt(a, i) == EntryAt(b, i);
    }
  }

  /** One thing that can happen to a store: a write that succeeds, or one that fails after reaching the
      disk followed by a reopening (a write that fails before reaching it changes nothing). */
  ghost predicate Moves(identity: string, s: Stored, s': Stored) {
    && Shaped(s.state)
    && (s' == s
        || exists r :: Writes(s, identity, r) && (r.from != 0 ==> s.state.base <= r.from <= s.state.base + |s.state.log|)
                       && s' == Accepted(s, r))
  }

  ghost predicate MoveAt(identity: string, run: seq<Stored>, k: nat)
    requires 0 < k < |run|
  {
    Moves(identity, run[k - 1], run[k])
  }

  /** The states a store's disk went through. */
  ghost predicate IsTrail(identity: string, trail: seq<Stored>) {
    && |trail| > 0 && Shaped(trail[0].state)
    && forall i {:trigger MoveAt(identity, trail, i)} :: 0 < i < |trail| ==> MoveAt(identity, trail, i)
  }

  lemma TrailGrows(identity: string, trail: seq<Stored>, s: Stored, r: Record)
    requires IsTrail(identity, trail) && trail[|trail| - 1] == s && Shaped(s.state) && Writes(s, identity, r)
    ensures r.from != 0 ==> s.state.base <= r.from <= s.state.base + |s.state.log|
    ensures IsTrail(identity, trail + [Accepted(s, r)])
  {
    AcceptedIsShaped(s, identity, r);
    var longer := trail + [Accepted(s, r)];
    forall i | 0 < i < |longer| ensures MoveAt(identity, longer, i) {
      assert i < |trail| ==> MoveAt(identity, trail, i);
    }
  }

  /** Over any sequence of saves, checkpoints, failed writes and reopenings, term and commit never
      regress, a vote never changes within its term, and committed entries stay what they were. */
  lemma {:induction false} NeverRegresses(identity: string, run: seq<Stored>, j: nat, k: nat)
    requires IsTrail(identity, run) && j <= k < |run|
    ensures Advances(run[j].state, run[k].state)
    decreases k
  {
    if k == 0 {
    } else {
      NeverRegresses(identity, run, if j < k then j else k - 1, k - 1);
      assert MoveAt(identity, run, k);
      OneMoveAdvances(identity, run[k - 1], run[k]);
      if j < k {
        AdvancesTransitive(run[j].state, run[k - 1].state, run[k].state);
      }
    }
  }

  lemma OneMoveAdvances(identity: string, s: Stored, s': Stored)
    requires Moves(identity, s, s')
    ensures Advances(s.state, s'.state) && Advances(s'.state, s'.state)
  {
    if s' != s {
      var r :| Writes(s, identity, r) && (r.from != 0 ==> s.state.base <= r.from <= s.state.base + |s.state.log|)
               && s' == Accepted(s, r);
      WriteAdvances(s, identity, r);
    }
  }

  /** A checkpoint record needs no record before it: wherever it is valid, it replays alone to the same
      state. */
  lemma CheckpointReplaysAlone(s: Stored, identity: string, r: Record)
    requires Shaped(s.state) && Objection(s.state, identity, r) == None && r.checkpoint.Some?
    ensures Replay(identity, [r]) == Some(Accepted(s, r))
  {
    assert [r][..0] == [];
    assert Replay(identity, [r][..|[r]| - 1]) == Some(EMPTY);
    assert Objection(EMPTY.state, identity, r) == None;
  }

  lemma ReplayAppends(identity: string, records: seq<Record>, r: Record)
    requires Replay(identity, records).Some?
    requires Objection(Replay(identity, records).value.state, identity, r) == None
    ensures var s := Replay(identity, records).value;
            && (r.from != 0 ==> s.state.base <= r.from <= s.state.base + |s.state.log|)
            && Replay(identity, records + [r]) == Some(Accepted(s, r))
  {
    assert (records + [r])[..|records + [r]| - 1] == records;
    AcceptedIsShaped(Replay(identity, records).value, identity, r);
  }

  // ---- The objects ----

  /** How the disk treats one write: it succeeds, it is refused before the journal is touched (an
      oversized record, no room for a replacement), or it fails after which the journal is closed, the
      record having been lost or having reached the disk. */
  datatype Fault = Healthy | Refused | Lost | LandedUnacknowledged

  /** Whether a write gets to the disk. */
  predicate Lands(broken: bool, fault: Fault) {
    !broken && (fault == Healthy || fault == LandedUnacknowledged)
  }

  /** Whether the journal is closed after a write. */
  predicate Breaks(broken: bool, fault: Fault) {
    broken || fault == Lost || fault == LandedUnacknowledged
  }

  /** The journal as the store sees it: whole records; a torn one does not count.  After a write that
      failed halfway nothing more is ever written. */
  class Journal {
    var records: seq<Record>
    var broken: bool

    constructor (found: seq<Record>)
      ensures records == found && !broken
    {
      records, broken := found, false;
    }

    method Append(r: Record, fault: Fault) returns (ok: bool)
      modifies this
      ensures ok <==> !old(broken) && fault == Healthy
      ensures broken == Breaks(old(broken), fault)
      ensures records == if Lands(old(broken), fault) then old(records) + [r] else old(records)
    {
      if broken {
        return false;
      }
      if fault == Refused {
        return false;
      }
      if fault != Lost {
        records := records + [r];
      }
      ok := fault == Healthy;
      broken := !ok;
    }

    /** Old or new content, never a mixture. */
    method Replace(r: Record, fault: Fault) returns (ok: bool)
      modifies this
      ensures ok <==> !old(broken) && fault == Healthy
      ensures broken == Breaks(old(broken), fault)
      ensures records == if Lands(old(broken), fault) then [r] else old(records)
    {
      if broken {
        return false;
      }
      if fault == Refused {
        return false;
      }
      if fault != Lost {
        records := [r];
      }
      ok := fault == Healthy;
      broken := !ok;
    }
  }

  class Disk {
    const wal: Journal
    const identity: string
    var state: DurableState
    var snapshot: SM.State
    /** The states that the disk went through since it was opened. */
    ghost var trail: seq<Stored>

    ghost function Held(): Stored
      reads this
    {
      Stored(state, snapshot)
    }

    /** What a replay of the journal gives. */
    ghost function Durable(): Option<Stored>
      reads this, wal
    {
      Replay(identity, wal.records)
    }

    /** While the journal works, memory and journal agree; a replay always succeeds. */
    ghost predicate Valid()
      reads this, wal
    {
      && Shaped(state) && IsTrail(identity, trail)
      && Durable() == Some(trail[|trail| - 1])
      && (!wal.broken ==> Durable() == Some(Held()))
    }

    constructor Blank(identity: string, wal: Journal)
      ensures this.identity == identity && this.wal == wal && Held() == EMPTY && trail == [EMPTY]
    {
      this.identity, this.wal, trail := identity, wal, [EMPTY];
      state, snapshot := EMPTY.state, EMPTY.snapshot;
    }

    method At(index: nat) returns (e: Entry)
      requires Shaped(state) && state.base <= index <= LastIndex(state)
      ensures e == EntryAt(state, index)
    {
      e := state.log[index - state.base];
    }

    /** The loops of `validate` over the entries of a record. */
    method CheckEntries(entries: seq<Entry>, first: nat, maxTerm: nat, previous: nat) returns (error: Option<StoreError>)
      ensures error == EntriesError(entries, first, maxTerm, previous)
    {
      var previousTerm, i := previous, 0;
      while i < |entries|
        invariant 0 <= i <= |entries|
        invariant EntriesError(entries, first, maxTerm, previous) == EntriesError(entries[i..], first + i, maxTerm, previousTerm)
      {
        var e := entries[i];
        assert entries[i..][0] == e && entries[i..][1..] == entries[i + 1..];
        if e.index != first + i || e.term == 0 || e.term > maxTerm || e.term < previousTerm {
          return Some(InvalidEntry);
        }
        if !ValidEntry(e) {
          return Some(InvalidCommand);
        }
        previousTerm := e.term;
        i := i + 1;
      }
      return None;
    }

    method Validate(r: Record) returns (error: Option<StoreError>)
      requires Shaped(state)
      ensures error == Objection(state, identity, r)
    {
      if r.checkpoint.Some? {
        var c := r.checkpoint.value;
        if r.identity != identity || r.term != 0 || r.vote != None || r.commit != 0 || r.from != 0 || r.entries != [] {
          return Some(InvalidCheckpoint);
        }
        if c.index < state.base || c.commit < c.index || c.raftTerm < state.term || c.commit < state.commit || c.log == []
           || c.log[0].index != c.index || c.log[0].term != c.term {
          return Some(InvalidCheckpoint);
        }
        var scratch := new SM.Machine();
        var restored := scratch.Restore(c.machine);
        if !restored {
          return Some(InvalidCommand);
        }
        error := CheckEntries(c.log[1..], c.index + 1, c.raftTerm, c.term);
        if error.None? && c.commit > c.index + (|c.log| - 1) {
          error := Some(CommitExceedsLog);
        }
        return;
      }
      if r.identity != identity {
        return Some(WrongIdentity);
      }
      if r.term < state.term || r.commit < state.commit {
        return Some(Regressed);
      }
      if r.term == state.term && state.vote.Some? && r.vote != state.vote {
        return Some(VoteChanged);
      }
      var length := state.base + |state.log|;
      if r.from != 0 {
        if r.from <= state.commit || r.from > length {
          return Some(CommittedOrGap);
        }
        length := r.from + |r.entries|;
        var before := At(r.from - 1);
        error := CheckEntries(r.entries, r.from, r.term, before.term);
        if error.Some? {
          return;
        }
      } else if r.entries != [] {
        return Some(EntriesWithoutIndex);
      }
      if r.commit >= length {
        return Some(CommitExceedsLog);
      }
      return None;
    }

    method Accept(r: Record)
      requires Shaped(state) && (r.from != 0 ==> state.base <= r.from <= state.base + |state.log|)
      modifies this`state, this`snapshot
      ensures Held() == Accepted(old(Held()), r)
    {
      if r.checkpoint.Some? {
        var c := r.checkpoint.value;
        state := DurableState(c.raftTerm, c.vote, c.commit, c.index, c.log);
        snapshot := c.machine;
        return;
      }
      var log := state.log;
      if r.from != 0 {
        var offset := r.from - state.base;
        log := log[..offset] + r.entries;
      }
      state := state.(term := r.term, vote := r.vote, commit := r.commit, log := log);
    }

    /** Saves hard state and perhaps a log suffix.  A rejected record leaves no trace; a failed write
        leaves memory alone and the journal at the state before or after the record. */
    method Save(term: nat, vote: Option<Id>, commit: nat, from: nat, entries: seq<Entry>, fault: Fault)
      returns (error: Option<StoreError>)
      requires Valid()
      modifies this, wal
      ensures Valid()
      ensures var r := SaveRecord(identity, term, vote, commit, from, entries);
              var objection := Objection(old(state), identity, r);
              if objection.Some? then
                && error == objection && Held() == old(Held()) && trail == old(trail)
                && wal.records == old(wal.records) && wal.broken == old(wal.broken)
              else
                && (r.from != 0 ==> old(state.base) <= r.from <= old(state.base) + |old(state.log)|)
                && var landed := Lands(old(wal.broken), fault);
                   var after := Accepted(old(Held()), r);
                   && error == (if landed && fault == Healthy then None else Some(WriteFailed))
                   && wal.broken == Breaks(old(wal.broken), fault)
                   && Held() == (if error == None then after else old(Held()))
                   && wal.records == (if landed then old(wal.records) + [r] else old(wal.records))
                   && trail == (if landed then old(trail) + [after] else old(trail))
                   && Durable() == if landed then Some(after) else old(Durable())
    {
      assert |trail| > 0;
      hide Objection, Accepted, Replay, IsTrail;
      var r := SaveRecord(identity, term, vote, commit, from, entries);
      error := Validate(r);
      if error.Some? {
        return;
      }
      AcceptedIsShaped(Held(), identity, r);
      if Lands(wal.broken, fault) {
        ReplayAppends(identity, wal.records, r);
        TrailGrows(identity, trail, Held(), r);
        trail := trail + [Accepted(Held(), r)];
      }
      var written := wal.Append(r, fault);
      if !written {
        return Some(WriteFailed);
      }
      Accept(r);
    }

    /** Replaces the whole journal by one checkpoint record. */
    method TakeCheckpoint(machine: SM.State, index: nat, fault: Fault) returns (error: Option<StoreError>)
      requires Valid()
      modifies this, wal
      ensures Valid()
      ensures !(old(state.base) < index <= old(state.commit)) ==>
                && error == Some(InvalidCheckpoint) && Held() == old(Held()) && trail == old(trail)
                && wal.records == old(wal.records) && wal.broken == old(wal.broken)
      ensures old(state.base) < index <= old(state.commit) ==>
                var r := CheckpointAt(old(state), identity, machine, index);
                var objection := Objection(old(state), identity, r);
                if objection.Some? then
                  && error == objection && Held() == old(Held()) && trail == old(trail)
                  && wal.records == old(wal.records) && wal.broken == old(wal.broken)
                else
                  var landed := Lands(old(wal.broken), fault);
                  var after := Accepted(old(Held()), r);
                  && error == (if landed && fault == Healthy then None else Some(WriteFailed))
                  && wal.broken == Breaks(old(wal.broken), fault)
                  && Held() == (if error == None then after else old(Held()))
                  && wal.records == (if landed then [r] else old(wal.records))
                  && trail == (if landed then old(trail) + [after] else old(trail))
                  && Durable() == if landed then Some(after) else old(Durable())
    {
      if index <= state.base || index > state.commit {
        return Some(InvalidCheckpoint);
      }
      assert |trail| > 0;
      hide Objection, Accepted, Replay, IsTrail;
      var offset := index - state.base;
      var r := Record(identity, 0, None, 0, 0, [],
        Some(Checkpoint(index, state.log[offset].term, machine, state.term, state.vote, state.commit, state.log[offset..])));
      error := Validate(r);
      if error.Some? {
        return;
      }
      AcceptedIsShaped(Held(), identity, r);
      if Lands(wal.broken, fault) {
        CheckpointReplaysAlone(Held(), identity, r);
        TrailGrows(identity, trail, Held(), r);
        trail := trail + [Accepted(Held(), r)];
      }
      var written := wal.Replace(r, fault);
      if !written {
        return Some(WriteFailed);
      }
      Accept(r);
    }
  }

  /** Replays a journal into a new store, which holds exactly what the records replay to; none if one of
      them is rejected. */
  method Load(identity: string, wal: Journal) returns (disk: Option<Disk>)
    requires !wal.broken
    ensures disk.Some? <==> Replay(identity, wal.records).Some?
    ensures disk.Some? ==>
              var d := disk.value;
              && fresh(d) && d.wal == wal && d.identity == identity && d.Valid()
              && Some(d.Held()) == Replay(identity, wal.records)
  {
    var d := new Disk.Blank(identity, wal);
    var i := 0;
    while i < |wal.records|
      invariant 0 <= i <= |wal.records|
      invariant Replay(identity, wal.records[..i]) == Some(d.Held())
    {
      var r := wal.records[i];
      assert wal.records[..i + 1][..i] == wal.records[..i];
      var error := d.Validate(r);
      if error.Some? {
        RejectedNeverReplays(identity, wal.records, i + 1);
        return None;
      }
      AcceptedIsShaped(d.Held(), identity, r);
      d.Accept(r);
      i := i + 1;
    }
    assert wal.records[..|wal.records|] == wal.records;
    d.trail := [d.Held()];
    return Some(d);
  }

  /** Opening a store: an empty journal gets a first record. */
  method Open(identity: string, wal: Journal, fault: Fault) returns (disk: Option<Disk>)
    requires !wal.broken
    modifies wal
    ensures old(wal.records) != [] ==>
              && wal.records == old(wal.records) && !wal.broken
              && (disk.Some? <==> Replay(identity, wal.records).Some?)
    ensures old(wal.records) == [] ==> (disk.Some? <==> fault == Healthy)
    ensures disk.Some? ==>
              var d := disk.value;
              && fresh(d) && d.wal == wal && d.identity == identity && !wal.broken && d.Valid()
              && Some(d.Held()) == Replay(identity, old(wal.records))
              && (old(wal.records) == [] ==> wal.records == [SaveRecord(identity, 0, None, 0, 0, [])])
  {
    disk := Load(identity, wal);
    if disk.Some? && wal.records == [] {
      var error := disk.value.Save(0, None, 0, 0, [], fault);
      if error.Some? {
        return None;
      }
    }
  }

  lemma {:induction false} RejectedNeverReplays(identity: string, records: seq<Record>, i: nat)
    requires i <= |records| && Replay(identity, records[..i]).None?
    ensures Replay(identity, records).None?
    decreases |records|
  {
    if i < |records| {
      assert records[..|records| - 1][..i] == records[..i];
      RejectedNeverReplays(identity, records[..|records| - 1], i);
    } else {
      assert records[..i] == records;
    }
  }
}
