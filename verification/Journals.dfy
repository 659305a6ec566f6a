/** What a journal that opens is known to hold, whoever wrote it. */
module Journals {
  import opened RaftTypes
  import opened Store
  import SM = StateMachine

  /** The log is numbered from the base on, its terms never decrease nor pass the store's, and its commands and the
      checkpointed machine are valid. */
  ghost predicate Sound(s: Stored) {
    var st := s.state;
    && Shaped(st) && SM.ValidState(s.snapshot) && st.log[0].index == st.base
    && (forall i :: 0 < i < |st.log| ==> st.log[i].index == st.base + i && 0 < st.log[i].term <= st.term && ValidEntry(st.log[i]))
    && (forall i, j :: 0 <= i <= j < |st.log| ==> st.log[i].term <= st.log[j].term)
  }

  /** What one more record may change: nothing goes back, and a record without a checkpoint keeps a vote for as long as
      its term, and everything that is committed. */
  ghost predicate Proceeds(a: DurableState, b: DurableState, saved: bool) {
    && a.term <= b.term && a.commit <= b.commit && a.base <= b.base
    && (saved ==>
          && b.base == a.base && a.commit - a.base < |a.log| && a.commit - a.base < |b.log|
          && (a.term == b.term && a.vote.Some? ==> b.vote == a.vote)
          && forall i :: 0 <= i <= a.commit - a.base ==> b.log[i] == a.log[i])
  }

  lemma SavedIsSound(s: Stored, identity: string, r: Record)
    requires Sound(s) && Objection(s.state, identity, r).None? && r.checkpoint.None?
    ensures r.from != 0 ==> s.state.base <= r.from <= s.state.base + |s.state.log|
    ensures r.identity == identity && Sound(Accepted(s, r)) && Proceeds(s.state, Accepted(s, r).state, true)
  {
    hide SM.ValidState;
    AcceptedIsShaped(s, identity, r);
    if r.from != 0 {
      EntriesPass(r.entries, r.from, r.term, EntryAt(s.state, r.from - 1).term);
    }
  }

  lemma CheckpointIsSound(s: Stored, identity: string, r: Record)
    requires Sound(s) && Objection(s.state, identity, r).None? && r.checkpoint.Some?
    ensures r.from == 0 && r.identity == identity && Sound(Accepted(s, r)) && Proceeds(s.state, Accepted(s, r).state, false)
  {
    hide SM.ValidState;
    var c := r.checkpoint.value;
    EntriesPass(c.log[1..], c.index + 1, c.raftTerm, c.term);
    assert forall i :: 0 < i < |c.log| ==> c.log[i] == c.log[1..][i - 1];
  }

  /** A journal that replays was written for this node alone, and its state is sound. */
  lemma {:induction false} ReplayIsSound(identity: string, records: seq<Record>)
    requires Replay(identity, records).Some?
    ensures Sound(Replay(identity, records).value)
    ensures forall r :: r in records ==> r.identity == identity
    decreases |records|
  {
    if records != [] {
      var front, r := records[..|records| - 1], records[|records| - 1];
      ReplayIsSound(identity, front);
      var s := Replay(identity, front).value;
      if r.checkpoint.None? {
        SavedIsSound(s, identity, r);
      } else {
        CheckpointIsSound(s, identity, r);
      }
      assert records == front + [r];
    }
  }

  /** Another node's journal does not open. */
  lemma ForeignJournalIsRefused(own: string, other: string, records: seq<Record>)
    requires records != [] && own != other && Replay(other, records).Some?
    ensures Replay(own, records).None?
  {
    ReplayIsSound(other, records);
    assert records[0] in records;
    if Replay(own, records).Some? {
      ReplayIsSound(own, records);
    }
  }
}
