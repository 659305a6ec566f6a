/** Log entries, messages and the log vocabulary of internal/raft (types.go). */
module RaftTypes {
  import opened Wrappers
  import SM = StateMachine

  type Id = string

  /** A log entry; no command means a barrier or a term's opening no-op. */
  datatype Entry = Entry(index: nat, term: nat, command: Option<SM.Command>)
  type Log = seq<Entry>

  const SENTINEL := Entry(0, 0, None)

  datatype VoteRequest = VoteRequest(
    cluster: string, term: nat, candidate: Id, lastLogIndex: nat, lastLogTerm: nat)
  datatype VoteResponse = VoteResponse(term: nat, granted: bool)
  datatype AppendRequest = AppendRequest(
    cluster: string, term: nat, leader: Id, prevLogIndex: nat, prevLogTerm: nat,
    entries: seq<Entry>, leaderCommit: nat)
  datatype AppendResponse = AppendResponse(term: nat, success: bool, matchIndex: nat, conflictIndex: nat)

  /** The first `k` entries of both logs exist and are equal. */
  predicate Agree(a: Log, b: Log, k: nat) {
    && k <= |a| && k <= |b|
    && forall j :: 0 <= j < k ==> a[j] == b[j]
  }

  predicate ValidEntry(e: Entry) {
    e.command.Some? ==> SM.ValidCommand(e.command.value)
  }

  /** An uncompacted log: a sentinel, then entries numbered in order with positive, never
      decreasing terms and valid commands. */
  ghost predicate WellFormed(log: Log) {
    && |log| > 0 && log[0] == SENTINEL
    && (forall i :: 0 < i < |log| ==> log[i].index == i && log[i].term > 0 && ValidEntry(log[i]))
    && (forall i, j :: 0 <= i <= j < |log| ==> log[i].term <= log[j].term)
  }

  function LastTerm(log: Log): nat
    requires |log| > 0
  {
    log[|log| - 1].term
  }

  /** Section 5.4.1 of the Raft paper (extended version): log `a` is at least as up to date as log `b`. */
  predicate UpToDate(a: Log, b: Log)
    requires |a| > 0 && |b| > 0
  {
    LastTerm(a) > LastTerm(b) || (LastTerm(a) == LastTerm(b) && |a| >= |b|)
  }

  /** More than half of the fixed membership. */
  ghost predicate Majority(q: set<Id>, members: set<Id>) {
    q <= members && |q| > |members| / 2
  }

  /** Any two majorities share a member. */
  lemma MajoritiesMeet(a: set<Id>, b: set<Id>, members: set<Id>) returns (x: Id)
    requires Majority(a, members) && Majority(b, members)
    ensures x in a && x in b && x in members
  {
    SubsetSize(a + b, members);
    assert |a + b| == |a| + |b| - |a * b|;
    x :| x in a * b;
  }

  lemma {:induction false} SubsetSize<T>(a: set<T>, b: set<T>)
    requires a <= b
    ensures |a| <= |b|
  {
    assert b == a + (b - a);
    assert |a + (b - a)| == |a| + |b - a|;
  }

  // ---- The machine that a log prescribes ----

  function ApplyEntry(s: SM.State, e: Entry): (SM.State, SM.Outcome) {
    match e.command
    case Some(c) => SM.Apply(s, c)
    case None => (s, SM.Outcome(SM.EMPTY_REPLY, None))
  }

  /** What a waiter hears when its entry is applied: the command's outcome, with the value of the key
      it reads, if any, taken from the machine right after that entry. */
  function Hear(after: SM.State, out: SM.Outcome, readKey: Option<SM.Text>): SM.Outcome {
    match readKey
    case None => out
    case Some(key) =>
      var (value, found) := SM.Get(after, key);
      out.(reply := out.reply.(value := value, found := found))
  }

  /** The sequential machine after entries 1 to `k`. */
  function MachineAt(log: Log, k: nat): SM.State
    requires k < |log|
  {
    if k == 0 then SM.EMPTY_STATE else ApplyEntry(MachineAt(log, k - 1), log[k]).0
  }

  /** The sequential machine's answer to the operation at index `k`. */
  function AnswerAt(log: Log, k: nat, readKey: Option<SM.Text>): SM.Outcome
    requires 0 < k < |log|
  {
    var (after, out) := ApplyEntry(MachineAt(log, k - 1), log[k]);
    Hear(after, out, readKey)
  }

  lemma {:induction false} MachineAgrees(a: Log, b: Log, k: nat)
    requires Agree(a, b, k + 1)
    ensures MachineAt(a, k) == MachineAt(b, k)
  {
    if k > 0 {
      MachineAgrees(a, b, k - 1);
    }
  }

  lemma AnswerAgrees(a: Log, b: Log, k: nat, readKey: Option<SM.Text>)
    requires k > 0 && Agree(a, b, k + 1)
    ensures AnswerAt(a, k, readKey) == AnswerAt(b, k, readKey)
  {
    MachineAgrees(a, b, k - 1);
  }

  lemma {:induction false} MachineIsValid(log: Log, k: nat)
    requires k < |log|
    ensures SM.ValidState(MachineAt(log, k))
  {
    if k > 0 {
      MachineIsValid(log, k - 1);
      if log[k].command.Some? {
        SM.ApplyKeepsValid(MachineAt(log, k - 1), log[k].command.value);
      }
    }
  }
}
