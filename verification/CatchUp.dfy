/** How a leader finds where a follower's log agrees with its own (internal/raft/rpc.go), on logs alone.
    `l` is the leader's log, compacted through `b`; `f` is the follower's, compacted through `d`. */
module CatchUp {
  import opened Wrappers
  import opened RaftTypes
  import opened NodeModel

  function Max(x: nat, y: nat): nat { if x > y then x else y }
  function Min(x: nat, y: nat): nat { if x < y then x else y }

  /** What log matching and compaction guarantee of any two members: equal terms at an index mean equal
      logs up to it, and nothing below either base is disputed. */
  ghost predicate Compatible(l: Log, b: nat, f: Log, d: nat) {
    && WellFormed(l) && WellFormed(f)
    && (forall i :: 0 <= i < |l| && i < |f| && l[i].term == f[i].term ==> Agree(l, f, i + 1))
    && Agree(l, f, Max(b, d) + 1)
  }

  /** The last index at which both logs have the same term, looking down from `k`. */
  function Common(l: Log, f: Log, k: nat): (m: nat)
    requires k < |l| && k < |f| && l[0].term == f[0].term
    ensures m <= k && l[m].term == f[m].term
    ensures forall i :: m < i <= k ==> l[i].term != f[i].term
  {
    if l[k].term == f[k].term then k else Common(l, f, k - 1)
  }

  /** The last index through which the logs agree. */
  function Frontier(l: Log, f: Log): (m: nat)
    requires |l| > 0 && |f| > 0 && l[0].term == f[0].term
    ensures m < |l| && m < |f|
  {
    Common(l, f, Min(|l|, |f|) - 1)
  }

  lemma FrontierIsExact(l: Log, b: nat, f: Log, d: nat, i: nat)
    requires Compatible(l, b, f, d) && i < |l| && i < |f|
    ensures l[i].term == f[i].term <==> i <= Frontier(l, f)
    ensures Max(b, d) <= Frontier(l, f)
    ensures Agree(l, f, Frontier(l, f) + 1)
  {
    assert l[Max(b, d)] == f[Max(b, d)];
  }

  /** One request and its answer: the leader's window is accepted after `prev`, or `next` is lowered, or
      the leader reads below its base. */
  datatype Turn = Accepted(prev: nat) | Retry(next: nat) | OutOfRange

  /** The follower's answer to a request at `prev` that it rejects. */
  function Conflict(f: Log, d: nat, prev: nat): nat
    requires d < |f|
  {
    if prev >= |f| then |f|
    else if prev < d then d + 1
    else ConflictStart(f, d, prev, f[prev].term)
  }

  function Lowered(prev: nat, next: nat, conflict: nat): nat {
    if prev == 0 then next else Max(1, Min(prev, conflict))
  }

  function TakeTurn(l: Log, b: nat, f: Log, d: nat, next: nat): (t: Turn)
    requires 1 <= next <= |l| && b < |l| && d < |f|
    ensures t.Retry? ==> 1 <= t.next <= |l|
  {
    if next < b then OutOfRange
    else
      var prev := Max(next - 1, b);
      if d <= prev < |f| && f[prev].term == l[prev].term then Accepted(prev)
      else Retry(Lowered(prev, next, Conflict(f, d, prev)))
  }

  /** The state of the dialogue after `n` turns, the first of them at `next`. */
  function AfterTurns(l: Log, b: nat, f: Log, d: nat, next: nat, n: nat): (t: Turn)
    requires 1 <= next <= |l| && b < |l| && d < |f|
    ensures t.Retry? ==> 1 <= t.next <= |l|
  {
    if n == 0 then Retry(next)
    else
      match AfterTurns(l, b, f, d, next, n - 1)
      case Retry(k) => TakeTurn(l, b, f, d, k)
      case done => done
  }

  /** Where the conflict scan ends that starts at the first entry the follower holds beyond the frontier:
      the first entry of that term, or the follower's base. */
  function FirstOfTerm(l: Log, f: Log, d: nat): nat
    requires |l| > 0 && |f| > 0 && l[0].term == f[0].term && d <= Frontier(l, f) + 1 < |f|
  {
    ConflictStart(f, d, Frontier(l, f) + 1, f[Frontier(l, f) + 1].term)
  }

  /** Either the first request is acceptable, or the follower holds nothing that is not the leader's, or
      the scan does not end below the leader's base nor (unless the bases are equal) at its own. */
  predicate Recoverable(l: Log, b: nat, f: Log, d: nat, next: nat)
    requires |l| > 0 && |f| > 0 && l[0].term == f[0].term && d <= Frontier(l, f)
  {
    || next <= Frontier(l, f) + 1
    || |f| == Frontier(l, f) + 1
    || (var c := FirstOfTerm(l, f, d); b <= c && (d < c || b == d))
  }

  // ---- The conflict scan ----

  lemma {:induction false} ScanEnds(f: Log, d: nat, p: nat, t: nat)
    requires d <= p < |f| && f[p].term == t
    ensures var c := ConflictStart(f, d, p, t);
            && d <= c <= p && (forall i :: c <= i <= p ==> f[i].term == t)
            && (c == d || f[c - 1].term != t)
    decreases p
  {
    if p > d && f[p - 1].term == t {
      ScanEnds(f, d, p - 1, t);
    }
  }

  /** Scans from two entries of the same term end at the same place. */
  lemma {:induction false} SameScan(f: Log, d: nat, p: nat, q: nat)
    requires WellFormed(f) && d <= p <= q < |f| && f[p].term == f[q].term
    ensures ConflictStart(f, d, p, f[p].term) == ConflictStart(f, d, q, f[q].term)
    decreases q
  {
    if p < q {
      assert f[p].term <= f[q - 1].term <= f[q].term;
      SameScan(f, d, p, q - 1);
    }
  }

  /** The scan from beyond the frontier stays beyond it, or ends where the scan from just beyond it ends. */
  lemma ScanBeyond(l: Log, b: nat, f: Log, d: nat, p: nat)
    requires Compatible(l, b, f, d) && Frontier(l, f) < p < |f| && d <= Frontier(l, f)
    ensures var c := ConflictStart(f, d, p, f[p].term);
            c > Frontier(l, f) || c == FirstOfTerm(l, f, d)
  {
    var m, c := Frontier(l, f), ConflictStart(f, d, p, f[p].term);
    ScanEnds(f, d, p, f[p].term);
    if c <= m {
      assert f[m + 1].term == f[p].term;
      SameScan(f, d, m + 1, p);
    }
  }

  // ---- When the dialogue succeeds ----

  lemma AtFrontierAccepted(l: Log, b: nat, f: Log, d: nat, next: nat)
    requires Compatible(l, b, f, d) && 1 <= next <= Frontier(l, f) + 1
    requires b <= next && (d < next || d == b)
    ensures TakeTurn(l, b, f, d, next) == Accepted(Max(next - 1, b))
  {
    FrontierIsExact(l, b, f, d, Max(next - 1, b));
  }

  /** Beyond the frontier a turn is rejected and `next` falls; what it may fall to. */
  lemma BeyondFrontier(l: Log, b: nat, f: Log, d: nat, next: nat)
    requires Compatible(l, b, f, d) && Frontier(l, f) + 1 < next <= |l|
    ensures Max(b, d) <= Frontier(l, f)
    ensures var t := TakeTurn(l, b, f, d, next);
            && t.Retry? && t.next < next
            && (t.next > Frontier(l, f) || (|f| > Frontier(l, f) + 1 && t.next == Max(1, FirstOfTerm(l, f, d))))
  {
    var prev := next - 1;
    FrontierIsExact(l, b, f, d, Frontier(l, f));
    if prev < |f| {
      FrontierIsExact(l, b, f, d, prev);
      ScanBeyond(l, b, f, d, prev);
      ScanEnds(f, d, prev, f[prev].term);
    }
  }

  /** If the term just beyond the frontier began at or below it, a turn from beyond ends either still
      beyond, or where that term began. */
  lemma FallsToTermStart(l: Log, b: nat, f: Log, d: nat, next: nat)
    requires Compatible(l, b, f, d) && Frontier(l, f) + 1 < next <= |l| && d <= Frontier(l, f)
    requires Frontier(l, f) + 1 < |f| && FirstOfTerm(l, f, d) <= Frontier(l, f)
    ensures var t := TakeTurn(l, b, f, d, next);
            t.Retry? && (t.next > Frontier(l, f) + 1 || t.next == FirstOfTerm(l, f, d))
  {
    var prev, m := next - 1, Frontier(l, f);
    ScanNeverEndsAtSentinel(l, b, f, d);
    ScanEnds(f, d, m + 1, f[m + 1].term);
    BeyondFrontier(l, b, f, d, next);
    if prev < |f| {
      ScanEnds(f, d, prev, f[prev].term);
      ScanBeyond(l, b, f, d, prev);
      assert f[m].term == f[m + 1].term;
    }
  }

  lemma ScanNeverEndsAtSentinel(l: Log, b: nat, f: Log, d: nat)
    requires Compatible(l, b, f, d) && d <= Frontier(l, f) && Frontier(l, f) + 1 < |f|
    ensures FirstOfTerm(l, f, d) >= 1
  {
    var m := Frontier(l, f);
    ScanEnds(f, d, m + 1, f[m + 1].term);
  }

  lemma AcceptedAtOnce(l: Log, b: nat, f: Log, d: nat, next: nat)
    requires Compatible(l, b, f, d) && 1 <= next <= Frontier(l, f) + 1
    requires b <= next && (d < next || d == b)
    ensures AfterTurns(l, b, f, d, next, 1).Accepted?
  {
    AtFrontierAccepted(l, b, f, d, next);
    assert AfterTurns(l, b, f, d, next, 0) == Retry(next);
  }

  /** Once below the frontier, a recoverable dialogue is accepted. */
  lemma FallenIsAccepted(l: Log, b: nat, f: Log, d: nat, next: nat)
    requires Compatible(l, b, f, d) && Frontier(l, f) + 1 < next <= |l| && d <= Frontier(l, f)
    requires Recoverable(l, b, f, d, next)
    ensures var t := TakeTurn(l, b, f, d, next);
            t.Retry? && (t.next <= Frontier(l, f) ==> AfterTurns(l, b, f, d, t.next, 1).Accepted?)
  {
    BeyondFrontier(l, b, f, d, next);
    var k := TakeTurn(l, b, f, d, next).next;
    if k <= Frontier(l, f) {
      ScanNeverEndsAtSentinel(l, b, f, d);
      ScanEnds(f, d, Frontier(l, f) + 1, f[Frontier(l, f) + 1].term);
      AcceptedAtOnce(l, b, f, d, k);
    }
  }

  /** A recoverable dialogue ends with an accepted request, at or below the frontier, in at most `next`
      turns. */
  lemma {:induction false} RecoverableIsAccepted(l: Log, b: nat, f: Log, d: nat, next: nat) returns (n: nat)
    requires Compatible(l, b, f, d) && Max(b, d) < next <= |l|
    requires d <= Frontier(l, f) && Recoverable(l, b, f, d, next)
    ensures n <= next && AfterTurns(l, b, f, d, next, n).Accepted?
    decreases next
  {
    if next <= Frontier(l, f) + 1 {
      AcceptedAtOnce(l, b, f, d, next);
      n := 1;
    } else {
      BeyondFrontier(l, b, f, d, next);
      FallenIsAccepted(l, b, f, d, next);
      var k := TakeTurn(l, b, f, d, next).next;
      n := 1;
      if k > Frontier(l, f) {
        n := RecoverableIsAccepted(l, b, f, d, k);
      }
      TurnsShift(l, b, f, d, next, n);
      n := n + 1;
    }
  }

  lemma {:induction false} TurnsShift(l: Log, b: nat, f: Log, d: nat, next: nat, n: nat)
    requires 1 <= next <= |l| && b < |l| && d < |f| && TakeTurn(l, b, f, d, next).Retry?
    ensures AfterTurns(l, b, f, d, next, n + 1) == AfterTurns(l, b, f, d, TakeTurn(l, b, f, d, next).next, n)
  {
    hide TakeTurn;
    if n == 0 {
      assert AfterTurns(l, b, f, d, next, 0) == Retry(next);
    } else {
      TurnsShift(l, b, f, d, next, n - 1);
    }
  }

  /** A dialogue that can no longer succeed: still beyond the frontier and not recoverable, or below the
      leader's base, or at or below the base of a follower that compacted further than the leader. */
  predicate Doomed(l: Log, b: nat, f: Log, d: nat, next: nat)
    requires |l| > 0 && |f| > 0 && l[0].term == f[0].term && d <= Frontier(l, f)
  {
    (Max(b, d) < next && !Recoverable(l, b, f, d, next)) || next < b || (b < d && next <= d)
  }

  lemma DoomedStays(l: Log, b: nat, f: Log, d: nat, next: nat)
    requires Compatible(l, b, f, d) && 1 <= next <= |l| && d <= Frontier(l, f) && Doomed(l, b, f, d, next)
    ensures var t := TakeTurn(l, b, f, d, next);
            && !t.Accepted? && (t.Retry? ==> Doomed(l, b, f, d, t.next))
            && (t.OutOfRange? <==> next < b)
  {
    if next >= b && !(b < d && next <= d) {
      var m := Frontier(l, f);
      ScanEnds(f, d, m + 1, f[m + 1].term);
      BeyondFrontier(l, b, f, d, next);
      FallsToTermStart(l, b, f, d, next);
    }
  }

  lemma {:induction false} DoomedNeverAccepted(l: Log, b: nat, f: Log, d: nat, next: nat, n: nat)
    requires Compatible(l, b, f, d) && 1 <= next <= |l| && d <= Frontier(l, f) && Doomed(l, b, f, d, next)
    ensures var t := AfterTurns(l, b, f, d, next, n);
            !t.Accepted? && (t.Retry? ==> Doomed(l, b, f, d, t.next))
  {
    if n > 0 {
      DoomedNeverAccepted(l, b, f, d, next, n - 1);
      if AfterTurns(l, b, f, d, next, n - 1).Retry? {
        DoomedStays(l, b, f, d, AfterTurns(l, b, f, d, next, n - 1).next);
      }
    }
  }

  /** The search for agreement succeeds exactly from the positions that are not doomed. */
  lemma AgreementIsFound(l: Log, b: nat, f: Log, d: nat, next: nat)
    requires Compatible(l, b, f, d) && 1 <= next <= |l|
    ensures d <= Frontier(l, f)
    ensures !Doomed(l, b, f, d, next) <==> exists n: nat :: AfterTurns(l, b, f, d, next, n).Accepted?
  {
    FrontierIsExact(l, b, f, d, Max(b, d));
    if Doomed(l, b, f, d, next) {
      forall n: nat ensures !AfterTurns(l, b, f, d, next, n).Accepted? {
        DoomedNeverAccepted(l, b, f, d, next, n);
      }
    } else if Max(b, d) < next {
      var n := RecoverableIsAccepted(l, b, f, d, next);
    } else {
      AcceptedAtOnce(l, b, f, d, next);
    }
  }

  // ---- How it fails ----

  /** Requests forever: the follower's base is the higher one and was, or will be, where the scan ends. */
  predicate Stuck(l: Log, b: nat, f: Log, d: nat, next: nat)
    requires |l| > 0 && |f| > 0 && l[0].term == f[0].term && d <= Frontier(l, f)
  {
    && b < d && b <= next
    && (next <= d || (!Recoverable(l, b, f, d, next) && FirstOfTerm(l, f, d) == d))
  }

  lemma StuckStays(l: Log, b: nat, f: Log, d: nat, next: nat)
    requires Compatible(l, b, f, d) && 1 <= next <= |l| && d <= Frontier(l, f) && Stuck(l, b, f, d, next)
    ensures var t := TakeTurn(l, b, f, d, next); t.Retry? && Stuck(l, b, f, d, t.next)
  {
    if next > d {
      FallsToTermStart(l, b, f, d, next);
    }
  }

  lemma {:induction false} StuckForever(l: Log, b: nat, f: Log, d: nat, next: nat, n: nat)
    requires Compatible(l, b, f, d) && 1 <= next <= |l| && d <= Frontier(l, f) && Stuck(l, b, f, d, next)
    ensures var t := AfterTurns(l, b, f, d, next, n); t.Retry? && Stuck(l, b, f, d, t.next)
  {
    if n > 0 {
      StuckForever(l, b, f, d, next, n - 1);
      StuckStays(l, b, f, d, AfterTurns(l, b, f, d, next, n - 1).next);
    }
  }

  lemma BelowBaseAtOnce(l: Log, b: nat, f: Log, d: nat, next: nat)
    requires 1 <= next < b < |l| && d < |f|
    ensures AfterTurns(l, b, f, d, next, 1) == OutOfRange
  {
    assert AfterTurns(l, b, f, d, next, 0) == Retry(next);
  }

  lemma {:induction false} FallsBelowBase(l: Log, b: nat, f: Log, d: nat, next: nat) returns (n: nat)
    requires Compatible(l, b, f, d) && Max(b, d) < next <= |l| && d <= Frontier(l, f)
    requires !Recoverable(l, b, f, d, next) && FirstOfTerm(l, f, d) < b
    ensures AfterTurns(l, b, f, d, next, n).OutOfRange?
    decreases next
  {
    BeyondFrontier(l, b, f, d, next);
    FallsToTermStart(l, b, f, d, next);
    var k := TakeTurn(l, b, f, d, next).next;
    if k < b {
      BelowBaseAtOnce(l, b, f, d, k);
      n := 1;
    } else {
      n := FallsBelowBase(l, b, f, d, k);
    }
    TurnsShift(l, b, f, d, next, n);
    n := n + 1;
  }

  /** The leader reads, or will read, below its base: the next request starts there, or the scan runs back
      that far. */
  predicate Overruns(l: Log, b: nat, f: Log, d: nat, next: nat)
    requires |l| > 0 && |f| > 0 && l[0].term == f[0].term && d <= Frontier(l, f)
  {
    next < b || (Max(b, d) < next && Frontier(l, f) + 1 < |f| && FirstOfTerm(l, f, d) < b)
  }

  /** A doomed search either makes the leader read below its base, an index out of range, or goes on forever.
      If it was not yet at or below a base, the follower holds an entry that is not the leader's, of the term
      of the last entry they share. */
  lemma HowItFails(l: Log, b: nat, f: Log, d: nat, next: nat)
    requires Compatible(l, b, f, d) && 1 <= next <= |l| && d <= Frontier(l, f) && Doomed(l, b, f, d, next)
    ensures Max(b, d) < next ==> var m := Frontier(l, f); m + 1 < |f| && m + 1 < |l| && f[m + 1].term == f[m].term
    ensures Overruns(l, b, f, d, next) ==> exists n: nat :: AfterTurns(l, b, f, d, next, n).OutOfRange?
    ensures !Overruns(l, b, f, d, next) ==> forall n: nat :: AfterTurns(l, b, f, d, next, n).Retry?
  {
    var m := Frontier(l, f);
    FrontierIsExact(l, b, f, d, m);
    if Max(b, d) < next {
      ScanEnds(f, d, m + 1, f[m + 1].term);
    }
    if next < b {
      BelowBaseAtOnce(l, b, f, d, next);
    } else if Overruns(l, b, f, d, next) {
      var n := FallsBelowBase(l, b, f, d, next);
    } else {
      forall n: nat ensures AfterTurns(l, b, f, d, next, n).Retry? {
        StuckForever(l, b, f, d, next, n);
      }
    }
  }

  function E(index: nat, term: nat): Entry {
    Entry(index, term, None)
  }

  const LEADER_LOG: Log := [SENTINEL, E(1, 1), E(2, 1), E(3, 1), E(4, 2), E(5, 3)]
  const FOLLOWER_LOG: Log := [SENTINEL, E(1, 1), E(2, 1), E(3, 1), E(4, 1)]

  /** A leader of term 3 that compacted through 3 meets a follower whose entry 4 was never replicated: the
      scan runs back to entry 1, and the second request reads entry 1 of a log that starts at 3. */
  lemma CompactedLeaderOutOfRange()
    ensures Compatible(LEADER_LOG, 3, FOLLOWER_LOG, 0)
    ensures TakeTurn(LEADER_LOG, 3, FOLLOWER_LOG, 0, 5) == Retry(1)
    ensures TakeTurn(LEADER_LOG, 3, FOLLOWER_LOG, 0, 1) == OutOfRange
    ensures Doomed(LEADER_LOG, 3, FOLLOWER_LOG, 0, 5)
  {
    FrontierOfExample();
    assert ConflictStart(FOLLOWER_LOG, 0, 1, 1) == 1;
    assert ConflictStart(FOLLOWER_LOG, 0, 2, 1) == 1;
    assert ConflictStart(FOLLOWER_LOG, 0, 3, 1) == 1;
    assert ConflictStart(FOLLOWER_LOG, 0, 4, 1) == 1;
  }

  lemma FrontierOfExample()
    ensures Frontier(LEADER_LOG, FOLLOWER_LOG) == 3 && LEADER_LOG[4].term == 2 && FOLLOWER_LOG[4].term == 1
  {
    assert LEADER_LOG[3].term == 1 && FOLLOWER_LOG[3].term == 1;
    assert Common(LEADER_LOG, FOLLOWER_LOG, 3) == 3;
    assert Common(LEADER_LOG, FOLLOWER_LOG, 4) == 3;
  }

  /** A follower that compacted through 3 as an earlier leader meets a leader that did not: the scan ends at
      the follower's own base, and every later request lies below it. */
  lemma CompactedFollowerNeverFound(n: nat)
    ensures Compatible(LEADER_LOG, 0, FOLLOWER_LOG, 3)
    ensures AfterTurns(LEADER_LOG, 0, FOLLOWER_LOG, 3, 5, n).Retry?
    ensures Frontier(LEADER_LOG, FOLLOWER_LOG) == 3 && Doomed(LEADER_LOG, 0, FOLLOWER_LOG, 3, 5)
  {
    FrontierOfExample();
    assert ConflictStart(FOLLOWER_LOG, 3, 3, 1) == 3;
    assert ConflictStart(FOLLOWER_LOG, 3, 4, 1) == 3;
    StuckForever(LEADER_LOG, 0, FOLLOWER_LOG, 3, 5, n);
  }

  /** With nothing compacted no position is doomed. */
  lemma UncompactedIsNeverDoomed(l: Log, f: Log, next: nat)
    requires Compatible(l, 0, f, 0) && next >= 1
    ensures !Doomed(l, 0, f, 0, next)
  {
  }
}
