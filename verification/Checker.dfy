/** The linearizability checker of the Raft tests (internal/raft/history_test.go): a memoised search for a
    legal sequential order.  A 64-bit mask of calls is here the set of their positions. */
module Checker {
  import opened Wrappers
  import opened RaftTypes

  datatype Call = Call(operation: string, expected: SM.Text, value: SM.Text, result: SM.Reply, start: nat, end: nat)
  datatype Register = Register(value: SM.Text, found: bool)

  type History = seq<Call>
  type Mask = set<nat>

  const BLANK := Register([], false)

  function StepRegister(s: Register, c: Call): (Register, SM.Reply) {
    var seen := SM.Reply(s.value, s.found, false, false);
    if c.operation == "SET" then (Register(c.value, true), SM.Reply(c.value, true, true, false))
    else if c.operation == "DELETE" then (BLANK, seen.(applied := s.found))
    else if c.operation == "CAS" then
      if s.found && s.value == c.expected then (Register(c.value, true), SM.Reply(c.value, true, true, false))
      else (s, seen.(conflict := true))
    else (s, seen)
  }

  // ---- What the checker is to decide ----

  /** Every position of the history exactly once. */
  ghost predicate IsPermutation(order: seq<nat>, n: nat) {
    && |order| == n
    && (forall p :: 0 <= p < |order| ==> order[p] < n)
    && (forall p, q :: 0 <= p < q < |order| ==> order[p] != order[q])
  }

  /** Nothing is ordered after a call that started only when it had ended. */
  ghost predicate RespectsTime(history: History, order: seq<nat>)
    requires forall p :: 0 <= p < |order| ==> order[p] < |history|
  {
    forall p, q :: 0 <= p <= q < |order| ==> history[order[p]].start <= history[order[q]].end
  }

  /** The register after the first `k` calls of the order. */
  function RegisterAt(history: History, order: seq<nat>, k: nat): Register
    requires k <= |order| && forall p :: 0 <= p < |order| ==> order[p] < |history|
  {
    if k == 0 then BLANK else StepRegister(RegisterAt(history, order, k - 1), history[order[k - 1]]).0
  }

  /** Executed in this order from the empty register, every call returns its recorded result. */
  ghost predicate Reproduces(history: History, order: seq<nat>)
    requires forall p :: 0 <= p < |order| ==> order[p] < |history|
  {
    forall p :: 0 <= p < |order| ==>
      StepRegister(RegisterAt(history, order, p), history[order[p]]).1 == history[order[p]].result
  }

  ghost predicate Legal(history: History, order: seq<nat>) {
    IsPermutation(order, |history|) && RespectsTime(history, order) && Reproduces(history, order)
  }

  // ---- The search, as completions of a partial order ----

  /** The calls that must come before call `i`. */
  function Predecessors(history: History, i: nat): Mask
    requires i < |history|
  {
    set j: nat | 0 <= j < |history| && history[j].end < history[i].start
  }

  function UpTo(n: nat): (s: Mask)
    ensures |s| == n && forall i: nat :: i in s <==> i < n
  {
    if n == 0 then {} else UpTo(n - 1) + {n - 1}
  }

  function Everything(history: History): Mask {
    UpTo(|history|)
  }

  /** With the calls of `done` executed and the register at `s`, the rest can follow in this order. */
  predicate Completes(history: History, done: Mask, s: Register, rest: seq<nat>)
    decreases |rest|
  {
    if rest == [] then done == Everything(history)
    else
      var i := rest[0];
      && i < |history| && i !in done && Predecessors(history, i) <= done
      && StepRegister(s, history[i]).1 == history[i].result
      && Completes(history, done + {i}, StepRegister(s, history[i]).0, rest[1..])
  }

  ghost predicate Completable(history: History, done: Mask, s: Register) {
    exists rest :: Completes(history, done, s, rest)
  }

  lemma EverythingCounts(history: History, done: Mask)
    requires done <= Everything(history)
    ensures |Everything(history)| == |history| && |done| <= |history|
    ensures |done| == |history| ==> done == Everything(history)
  {
    assert Everything(history) == done + (Everything(history) - done);
    assert |Everything(history)| == |done| + |Everything(history) - done|;
  }

  // ---- Completions are exactly the legal orders ----

  /** The calls executed by the first `k` positions of an order. */
  function Done(order: seq<nat>, k: nat): Mask
    requires k <= |order|
  {
    set p | 0 <= p < k :: order[p]
  }

  ghost predicate Bounded(history: History, order: seq<nat>) {
    forall p :: 0 <= p < |order| ==> order[p] < |history|
  }

  lemma DoneNext(order: seq<nat>, k: nat)
    requires k < |order|
    ensures Done(order, k + 1) == Done(order, k) + {order[k]}
  {
  }

  lemma DoneIsEverything(history: History, order: seq<nat>)
    requires IsPermutation(order, |history|)
    ensures Done(order, |order|) == Everything(history)
  {
    DoneCounts(order, |order|);
    EverythingCounts(history, Done(order, |order|));
  }

  lemma {:induction false} DoneCounts(order: seq<nat>, k: nat)
    requires k <= |order| && forall p, q :: 0 <= p < q < |order| ==> order[p] != order[q]
    ensures |Done(order, k)| == k
  {
    if k > 0 {
      DoneCounts(order, k - 1);
      DoneNext(order, k - 1);
    } else {
      assert Done(order, 0) == {};
    }
  }

  lemma PredecessorsDone(history: History, order: seq<nat>, k: nat)
    requires IsPermutation(order, |history|) && RespectsTime(history, order) && k < |order|
    ensures Predecessors(history, order[k]) <= Done(order, k)
  {
    DoneIsEverything(history, order);
    forall j | j in Predecessors(history, order[k]) ensures j in Done(order, k) {
      assert j in Done(order, |order|);
      var q :| 0 <= q < |order| && order[q] == j;
      assert q < k;
    }
  }

  /** What a completion promises of each of its calls. */
  ghost predicate FitsAt(history: History, order: seq<nat>, k: nat)
    requires k < |order| && Bounded(history, order)
  {
    && order[k] !in Done(order, k) && Predecessors(history, order[k]) <= Done(order, k)
    && StepRegister(RegisterAt(history, order, k), history[order[k]]).1 == history[order[k]].result
  }

  lemma LegalFits(history: History, order: seq<nat>, k: nat)
    requires Legal(history, order) && k < |order|
    ensures FitsAt(history, order, k)
  {
    PredecessorsDone(history, order, k);
  }

  lemma CompletesFromNext(history: History, done: Mask, s: Register, rest: seq<nat>)
    requires rest != [] && rest[0] < |history| && rest[0] !in done && Predecessors(history, rest[0]) <= done
    requires StepRegister(s, history[rest[0]]).1 == history[rest[0]].result
    requires Completes(history, done + {rest[0]}, StepRegister(s, history[rest[0]]).0, rest[1..])
    ensures Completes(history, done, s, rest)
  {
  }

  /** A completion of the calls after position `k` is one of those from `k` on, if `k` fits. */
  lemma CompletesFrom(history: History, order: seq<nat>, k: nat)
    requires k < |order| && Bounded(history, order) && FitsAt(history, order, k)
    requires Completes(history, Done(order, k + 1), RegisterAt(history, order, k + 1), order[k + 1..])
    ensures Completes(history, Done(order, k), RegisterAt(history, order, k), order[k..])
  {
    hide Completes, Predecessors, StepRegister, Done;
    DoneNext(order, k);
    assert order[k..][0] == order[k] && order[k..][1..] == order[k + 1..];
    CompletesFromNext(history, Done(order, k), RegisterAt(history, order, k), order[k..]);
  }

  lemma NothingLeft(history: History, order: seq<nat>)
    requires Bounded(history, order) && Done(order, |order|) == Everything(history)
    ensures Completes(history, Done(order, |order|), RegisterAt(history, order, |order|), order[|order|..])
  {
  }

  lemma {:induction false} LegalCompletes(history: History, order: seq<nat>, k: nat)
    requires Legal(history, order) && k <= |order|
    ensures Completes(history, Done(order, k), RegisterAt(history, order, k), order[k..])
    decreases |order| - k
  {
    hide Completes, Done, FitsAt, RespectsTime, RegisterAt;
    if k == |order| {
      DoneIsEverything(history, order);
      NothingLeft(history, order);
    } else {
      LegalCompletes(history, order, k + 1);
      LegalFits(history, order, k);
      CompletesFrom(history, order, k);
    }
  }

  lemma {:induction false} CompletionBounded(history: History, done: Mask, s: Register, rest: seq<nat>)
    requires Completes(history, done, s, rest)
    ensures Bounded(history, rest)
    decreases |rest|
  {
    if rest != [] {
      CompletionBounded(history, done + {rest[0]}, StepRegister(s, history[rest[0]]).0, rest[1..]);
      forall p | 0 <= p < |rest| ensures rest[p] < |history| {
        if p > 0 {
          assert rest[p] == rest[1..][p - 1];
        }
      }
    }
  }

  /** And a completion from `k` on fits at `k` and leaves one of the rest. */
  lemma CompletionStarts(history: History, order: seq<nat>, k: nat)
    requires k < |order| && Bounded(history, order)
    requires Completes(history, Done(order, k), RegisterAt(history, order, k), order[k..])
    ensures FitsAt(history, order, k)
    ensures Completes(history, Done(order, k + 1), RegisterAt(history, order, k + 1), order[k + 1..])
  {
    hide Predecessors, StepRegister, Done;
    DoneNext(order, k);
    assert order[k..][0] == order[k] && order[k..][1..] == order[k + 1..];
  }

  lemma CompletionEnds(history: History, order: seq<nat>)
    requires Bounded(history, order)
    requires Completes(history, Done(order, |order|), RegisterAt(history, order, |order|), order[|order|..])
    ensures Done(order, |order|) == Everything(history)
  {
  }

  lemma {:induction false} CompletionFits(history: History, order: seq<nat>, k: nat)
    requires k <= |order| && Bounded(history, order)
    requires Completes(history, Done(order, k), RegisterAt(history, order, k), order[k..])
    ensures forall p {:trigger FitsAt(history, order, p)} :: k <= p < |order| ==> FitsAt(history, order, p)
    ensures Done(order, |order|) == Everything(history)
    decreases |order| - k
  {
    hide Completes, Done, FitsAt, RegisterAt;
    if k == |order| {
      CompletionEnds(history, order);
    } else {
      CompletionStarts(history, order, k);
      CompletionFits(history, order, k + 1);
    }
  }

  /** From the start, completions are exactly the permutations that respect real time and reproduce every
      recorded result. */
  lemma CompletionIsLegal(history: History, order: seq<nat>)
    ensures Completes(history, {}, BLANK, order) <==> Legal(history, order)
  {
    assert Done(order, 0) == {} && order[0..] == order;
    if Legal(history, order) {
      LegalCompletes(history, order, 0);
    } else if Completes(history, {}, BLANK, order) {
      CompletionBounded(history, {}, BLANK, order);
      assert RegisterAt(history, order, 0) == BLANK;
      CompletionFits(history, order, 0);
      FittingIsLegal(history, order);
    }
  }

  lemma FittingIsLegal(history: History, order: seq<nat>)
    requires Bounded(history, order) && Done(order, |order|) == Everything(history)
    requires forall p {:trigger FitsAt(history, order, p)} :: 0 <= p < |order| ==> FitsAt(history, order, p)
    ensures Legal(history, order)
  {
    forall p, q | 0 <= p < q < |order| ensures order[p] != order[q] {
      assert FitsAt(history, order, q) && order[p] in Done(order, q);
    }
    DoneCounts(order, |order|);
    EverythingCounts(history, Everything(history));
    forall p | 0 <= p < |order|
      ensures StepRegister(RegisterAt(history, order, p), history[order[p]]).1 == history[order[p]].result
    {
      assert FitsAt(history, order, p);
    }
    forall p, q | 0 <= p <= q < |order| ensures history[order[p]].start <= history[order[q]].end {
      assert FitsAt(history, order, p);
      assert order[q] !in Done(order, p);
    }
  }

  // ---- The search, one call after another ----

  /** Call `i` can be executed next, and the others after it. */
  ghost predicate Continues(history: History, done: Mask, s: Register, i: nat)
    requires i < |history|
  {
    && i !in done && Predecessors(history, i) <= done
    && StepRegister(s, history[i]).1 == history[i].result
    && Completable(history, done + {i}, StepRegister(s, history[i]).0)
  }

  lemma FirstContinues(history: History, done: Mask, s: Register, rest: seq<nat>)
    requires Completes(history, done, s, rest) && rest != []
    ensures rest[0] < |history| && Continues(history, done, s, rest[0])
  {
    assert Completes(history, done + {rest[0]}, StepRegister(s, history[rest[0]]).0, rest[1..]);
  }

  lemma StartsCompletion(history: History, done: Mask, s: Register, i: nat)
    requires i < |history| && Continues(history, done, s, i)
    ensures Completable(history, done, s)
  {
    var rest :| Completes(history, done + {i}, StepRegister(s, history[i]).0, rest);
    assert ([i] + rest)[1..] == rest;
    CompletesFromNext(history, done, s, [i] + rest);
  }

  /** The calls that remain can be executed exactly if none does or one of them can be next. */
  lemma CompletableByFirst(history: History, done: Mask, s: Register)
    ensures Completable(history, done, s) <==>
            done == Everything(history) || exists i {:trigger Continues(history, done, s, i)} :: 0 <= i < |history| && Continues(history, done, s, i)
  {
    if done == Everything(history) {
      assert Completes(history, done, s, []);
    } else if Completable(history, done, s) {
      var rest :| Completes(history, done, s, rest);
      FirstContinues(history, done, s, rest);
    }
    forall i | 0 <= i < |history| && Continues(history, done, s, i) ensures Completable(history, done, s) {
      StartsCompletion(history, done, s, i);
    }
  }

  ghost predicate NoneBelow(history: History, done: Mask, s: Register, i: nat)
    requires i <= |history|
  {
    forall j {:trigger Continues(history, done, s, j)} :: 0 <= j < i ==> !Continues(history, done, s, j)
  }

  lemma NoneHere(history: History, done: Mask, s: Register, i: nat)
    requires i < |history| && NoneBelow(history, done, s, i) && !Continues(history, done, s, i)
    ensures NoneBelow(history, done, s, i + 1)
  {
  }

  lemma NoneAtAll(history: History, done: Mask, s: Register)
    requires done != Everything(history) && NoneBelow(history, done, s, |history|)
    ensures !Completable(history, done, s)
  {
    hide Completable, Continues;
    CompletableByFirst(history, done, s);
  }

  // ---- The checker itself ----

  class Search {
    const history: History
    var predecessors: seq<Mask>
    /** Search states known to lead nowhere. */
    var failed: set<(Mask, Register)>

    ghost predicate Valid()
      reads this
    {
      && |predecessors| == |history|
      && (forall i :: 0 <= i < |history| ==> predecessors[i] == Predecessors(history, i))
      && (forall k {:trigger k in failed} :: k in failed ==> !Completable(history, k.0, k.1))
    }

    /** Fills the predecessor masks by comparing every two calls. */
    constructor (history: History)
      ensures Valid() && this.history == history
    {
      this.history := history;
      failed := {};
      predecessors := [];
      new;
      var i := 0;
      while i < |history|
        invariant 0 <= i <= |history| && this.history == history && failed == {} && |predecessors| == i
        invariant forall k :: 0 <= k < i ==> predecessors[k] == Predecessors(history, k)
      {
        var mask, j: nat := {}, 0;
        while j < |history|
          invariant 0 <= j <= |history|
          invariant mask == set k: nat | 0 <= k < j && history[k].end < history[i].start
        {
          if history[j].end < history[i].start {
            mask := mask + {j};
          }
          j := j + 1;
        }
        predecessors := predecessors + [mask];
        i := i + 1;
      }
    }

    /** True exactly when the calls not in `mask` can still be executed, the register being at `s`. */
    method Run(mask: Mask, s: Register) returns (found: bool)
      requires Valid() && mask <= Everything(history)
      modifies this`failed
      ensures Valid()
      ensures found <==> Completable(history, mask, s)
      decreases |history| - |mask|
    {
      assert NoneBelow(history, mask, s, 0);
      hide NoneBelow;
      EverythingCounts(history, mask);
      if mask == Everything(history) {
        CompletableByFirst(history, mask, s);
        return true;
      }
      if (mask, s) in failed {
        return false;
      }
      var i: nat := 0;
      while i < |history|
        invariant 0 <= i <= |history| && Valid()
        invariant NoneBelow(history, mask, s, i)
      {
        if i !in mask && predecessors[i] <= mask {
          var (next, result) := StepRegister(s, history[i]);
          if result == history[i].result {
            var more := Run(mask + {i}, next);
            if more {
              StartsCompletion(history, mask, s, i);
              return true;
            }
          }
        }
        NoneHere(history, mask, s, i);
        i := i + 1;
      }
      NoneAtAll(history, mask, s);
      failed := failed + {(mask, s)};
      return false;
    }
  }

  /** The checker accepts a history exactly when some permutation of its calls respects real-time
      precedence and reproduces every result from the empty register. */
  method Linearizable(history: History) returns (ok: bool)
    requires |history| <= 32
    ensures ok <==> exists order :: Legal(history, order)
  {
    var search := new Search(history);
    ok := search.Run({}, BLANK);
    forall order ensures Completes(history, {}, BLANK, order) <==> Legal(history, order) {
      CompletionIsLegal(history, order);
    }
  }

  // ---- The register is the machine seen through one key ----

  function Project(s: SM.State, key: SM.Text): Register {
    var (value, found) := SM.Get(s, key);
    Register(value, found)
  }

  function AsCall(c: SM.Command): Call {
    Call(c.operation, c.expected, c.value, SM.EMPTY_REPLY, 0, 0)
  }

  const READ := Call("GET", [], [], SM.EMPTY_REPLY, 0, 0)

  /** A command the machine accepts moves the register of its key, and answers, as the checker's
      specification says; it leaves every other key's register alone. */
  lemma RegisterIsProjection(s: SM.State, c: SM.Command, key: SM.Text)
    requires SM.Check(s, c) == SM.Fresh
    ensures var (after, out) := SM.Apply(s, c);
            if key == c.key then StepRegister(Project(s, key), AsCall(c)) == (Project(after, key), out.reply) && out.error.None?
            else Project(after, key) == Project(s, key)
  {
  }

  /** The checker's call for the operation of a log entry on one key: a command, or the read that a
      waiter attached to a barrier. */
  function CallOn(e: Entry, readKey: Option<SM.Text>, key: SM.Text): Option<Call> {
    match e.command
    case Some(c) => if c.key == key then Some(AsCall(c)) else None
    case None => if readKey == Some(key) then Some(READ) else None
  }

  /** The answer a client hears for the operation at index `k` is the checker's result, and the register
      steps with the machine, when the machine accepts what is logged there. */
  lemma AnswerIsStep(log: Log, k: nat, readKey: Option<SM.Text>, key: SM.Text)
    requires 0 < k < |log|
    requires log[k].command.Some? ==> readKey.None? && SM.Check(MachineAt(log, k - 1), log[k].command.value) == SM.Fresh
    ensures var before, after := Project(MachineAt(log, k - 1), key), Project(MachineAt(log, k), key);
            match CallOn(log[k], readKey, key)
            case Some(call) => StepRegister(before, call) == (after, AnswerAt(log, k, readKey).reply)
            case None => after == before
  {
    if log[k].command.Some? {
      RegisterIsProjection(MachineAt(log, k - 1), log[k].command.value, key);
    }
  }
}
