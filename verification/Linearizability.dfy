/** Every run has one sequential order of the operations that took effect. */
module Linearizability {
  import opened RaftTypes
  import opened NodeModel
  import opened Cluster
  import opened Invariant
  import opened Replication
  import opened History
  import opened Serving
  import opened Safety
  import opened Submissions
  import SM = StateMachine

  /** The operation answered by event `k`. */
  function OpOf(w: World, k: nat): Event
    requires k < |w.history| && w.history[k].Reply? && w.history[k].op < |w.history|
  {
    w.history[w.history[k].op]
  }

  /** The operation invoked at `q` took effect, answered or not: its entry is in `order`. */
  ghost predicate TookEffect(w: World, order: Log, q: nat) {
    && q < |w.history| && w.history[q].Invoke?
    && HasEntry(order, w.history[q].entry)
  }

  /** Where the operation invoked at `q` stands in the order. */
  function PlaceOf(w: World, q: nat): nat
    requires q < |w.history| && w.history[q].Invoke?
  {
    w.history[q].entry.index
  }

  /** Event `k`, if an answer, is what the machine says that executes `order` one entry at a time,
      and the answered operation took effect. */
  ghost predicate AnsweredBy(w: World, order: Log, k: nat)
    requires k < |w.history|
  {
    w.history[k].Reply? ==>
      && w.history[k].op < k && TookEffect(w, order, w.history[k].op)
      && var op := OpOf(w, k); w.history[k].outcome == AnswerAt(order, op.entry.index, op.readKey)
  }

  /** Place `i` of the order, if it holds a command, belongs to an operation that a client invoked. */
  ghost predicate ComesFromClient(w: World, order: Log, i: nat)
    requires i < |order|
  {
    order[i].command.Some? ==> exists q :: TookEffect(w, order, q) && PlaceOf(w, q) == i
  }

  /** The operation invoked at `q`, if it took effect, comes after the one answered at `p`. */
  ghost predicate Follows(w: World, order: Log, p: nat, q: nat)
    requires p < q && q < |w.history|
  {
    w.history[p].Reply? && TookEffect(w, order, q) ==>
      w.history[p].op < p && w.history[w.history[p].op].Invoke? && PlaceOf(w, w.history[p].op) < PlaceOf(w, q)
  }

  /** Nobody has led yet, or some leader's log is the order. */
  ghost predicate IsLeadersLog(w: World, order: Log) {
    order == [SENTINEL] || exists t :: t in w.reigns && w.reigns[t].log == order
  }

  /** `order` is one sequential execution of operations that clients invoked.  All answers are its answers, it
      respects real time, and every node has committed a prefix of it. */
  ghost predicate Linearized(w: World, order: Log) {
    && WellFormed(order) && IsLeadersLog(w, order)
    && (forall k {:trigger AnsweredBy(w, order, k)} :: 0 <= k < |w.history| ==> AnsweredBy(w, order, k))
    && (forall i {:trigger ComesFromClient(w, order, i)} :: 0 < i < |order| ==> ComesFromClient(w, order, i))
    // an operation is answered once at most, and no two operations have the same place
    && (forall j, k :: 0 <= j < k < |w.history| && w.history[j].Reply? && w.history[k].Reply? ==>
          w.history[j].op != w.history[k].op)
    && (forall q, r :: 0 <= q < r && TookEffect(w, order, q) && TookEffect(w, order, r) ==> PlaceOf(w, q) != PlaceOf(w, r))
    // answered before invoked means earlier in the order
    && (forall p, q {:trigger Follows(w, order, p, q)} :: 0 <= p < q < |w.history| ==> Follows(w, order, p, q))
    && (forall n :: n in w.nodes ==> Agree(w.nodes[n].log, order, w.nodes[n].commit + 1))
  }

  lemma {:induction false} NewestTerm(terms: set<nat>) returns (t: nat)
    requires terms != {}
    ensures t in terms && forall u :: u in terms ==> u <= t
    decreases |terms|
  {
    var x :| x in terms;
    if terms == {x} {
      t := x;
    } else {
      assert terms - {x} != {};
      var y := NewestTerm(terms - {x});
      t := if x > y then x else y;
      assert terms == (terms - {x}) + {x};
    }
  }

  ghost predicate HoldsChosen(w: World, order: Log) {
    forall t: nat, i: nat :: Chosen(w, t, i) ==> Agree(w.reigns[t].log, order, i + 1)
  }

  /** The newest leader's log, which holds everything chosen so far. */
  lemma NewestLog(w: World) returns (order: Log)
    requires Inv(w)
    ensures GoodLog(w, order) && IsLeadersLog(w, order) && HoldsChosen(w, order)
  {
    if w.reigns.Keys == {} {
      order := [SENTINEL];
    } else {
      var top := NewestTerm(w.reigns.Keys);
      order := w.reigns[top].log;
      assert ReignOK(w, top, w.reigns[top]);
      forall t: nat, i: nat | Chosen(w, t, i) ensures Agree(w.reigns[t].log, order, i + 1) {
        ChosenIsChoosable(w, t, i);
        LeaderHolds(w, top, t, i);
      }
    }
  }

  lemma AnswerInOrder(w: World, order: Log, k: nat)
    requires k < |w.history| && EventOK(w, k) && HoldsChosen(w, order)
    ensures AnsweredBy(w, order, k)
  {
    if w.history[k].Reply? {
      var op := OpOf(w, k);
      var i: nat :| ReplyAt(w, op, w.history[k].outcome, i);
      assert Agree(w.reigns[op.term].log, order, i + 1);
      AnswerAgrees(w.reigns[op.term].log, order, op.entry.index, op.readKey);
    }
  }

  /** Two operations are never the same entry. */
  lemma OwnPlaces(w: World, order: Log, q: nat, r: nat)
    requires EventsOK(w) && q < r && TookEffect(w, order, q) && TookEffect(w, order, r)
    ensures PlaceOf(w, q) != PlaceOf(w, r)
  {
    assert EventOK(w, q) && EventOK(w, r);
    assert InOrder(w.history[q], w.history[r]);
  }

  lemma CommandsAreClients(w: World, order: Log, i: nat)
    requires Recorded(w) && GoodLog(w, order) && 0 < i < |order|
    ensures ComesFromClient(w, order, i)
  {
    OwnLogHolds(w, order, i);
    assert Submitted(w, order[i].term, i);
    if order[i].command.Some? {
      var q :| InvokedAt(w, order[i], q);
      assert TookEffect(w, order, q);
    }
  }

  /** An operation that stands before an answered one was invoked before that one was. */
  lemma EarlierWasInvokedEarlier(w: World, order: Log, p: nat, q: nat)
    requires EventsOK(w) && Recorded(w) && HoldsChosen(w, order) && p < |w.history| && w.history[p].Reply?
    requires AnsweredBy(w, order, p) && TookEffect(w, order, q) && PlaceOf(w, q) < PlaceOf(w, w.history[p].op)
    ensures q < w.history[p].op
  {
    var op := OpOf(w, p);
    assert EventOK(w, p);
    var i: nat :| ReplyAt(w, op, w.history[p].outcome, i);
    assert Agree(w.reigns[op.term].log, order, i + 1);
    assert InSequence(w, q, w.history[p].op);
  }

  lemma RealTime(w: World, order: Log, p: nat, q: nat)
    requires EventsOK(w) && Recorded(w) && HoldsChosen(w, order) && p < q < |w.history|
    requires AnsweredBy(w, order, p)
    ensures Follows(w, order, p, q)
  {
    if w.history[p].Reply? && TookEffect(w, order, q) {
      OwnPlaces(w, order, w.history[p].op, q);
      if PlaceOf(w, q) < PlaceOf(w, w.history[p].op) {
        EarlierWasInvokedEarlier(w, order, p, q);
      }
    }
  }

  lemma CommittedInOrder(w: World, order: Log, n: Id)
    requires Inv(w) && n in w.nodes && WellFormed(order) && HoldsChosen(w, order)
    ensures Agree(w.nodes[n].log, order, w.nodes[n].commit + 1)
  {
    var s := w.nodes[n];
    assert NodeOK(w, n, s);
    if s.commit > 0 {
      var t1: nat, i: nat :| t1 <= s.term && CoveredBy(w, s.log, s.commit, t1, i);
      assert Agree(w.reigns[t1].log, order, i + 1);
    }
  }

  /** In every reachable state, one log orders all operations that took effect so far: its commands are
      clients', each answer, a barrier read's included, is the sequential machine's at the operation's index, no
      two operations share an index, whatever was invoked after another was answered comes later, even if it
      is never answered itself, and what any node has committed is a prefix of it. */
  lemma RunsAreLinearizable(run: seq<World>, k: nat) returns (order: Log)
    requires IsRun(run) && k < |run|
    ensures Linearized(run[k], order)
  {
    RunIsGood(run, k);
    RunIsRecorded(run, k);
    order := NewestLog(run[k]);
    OrderLinearizes(run[k], order);
  }

  lemma OrderLinearizes(w: World, order: Log)
    requires Good(w) && Recorded(w) && GoodLog(w, order) && IsLeadersLog(w, order) && HoldsChosen(w, order)
    ensures Linearized(w, order)
  {
    hide Inv, NodesServe, Recorded, HoldsChosen, Anchored, IsLeadersLog;
    forall j | 0 <= j < |w.history| ensures AnsweredBy(w, order, j) {
      assert EventOK(w, j);
      AnswerInOrder(w, order, j);
    }
    forall i | 0 < i < |order| ensures ComesFromClient(w, order, i) {
      CommandsAreClients(w, order, i);
    }
    forall q, r | 0 <= q < r && TookEffect(w, order, q) && TookEffect(w, order, r) ensures PlaceOf(w, q) != PlaceOf(w, r) {
      OwnPlaces(w, order, q, r);
    }
    forall p, q | 0 <= p < q < |w.history| ensures Follows(w, order, p, q) {
      assert AnsweredBy(w, order, p);
      RealTime(w, order, p, q);
    }
    forall n | n in w.nodes ensures Agree(w.nodes[n].log, order, w.nodes[n].commit + 1) {
      CommittedInOrder(w, order, n);
    }
  }

  /** Whoever waits at an index waits for that very entry, proposed by this node while it led the term
      it still leads; nobody is answered for an entry that replaced its own. */
  lemma WaitersOwnTheirEntries(run: seq<World>, k: nat, n: Id, i: nat)
    requires IsRun(run) && k < |run| && n in run[k].nodes && i in run[k].nodes[n].pending
    ensures var w, s := run[k], run[k].nodes[n];
            && s.role == Leader && s.applied < i < |s.log| && s.log[i].term == s.term
            && s.pending[i].ticket < |w.history|
            && w.history[s.pending[i].ticket] == Invoke(n, s.term, s.log[i], s.pending[i].readKey)
  {
    RunIsGood(run, k);
    NodeServes(run[k], n);
    assert WaiterOK(run[k], n, run[k].nodes[n], i);
  }

  /** `outcome` is the sequential machine's answer to the operation `ticket`. */
  ghost predicate AnsweredIn(w: World, order: Log, ticket: nat, outcome: SM.Outcome) {
    TookEffect(w, order, ticket) && outcome == AnswerAt(order, PlaceOf(w, ticket), w.history[ticket].readKey)
  }

  lemma RecordedIsAnswered(w: World, order: Log, ticket: nat, outcome: SM.Outcome)
    requires Linearized(w, order) && Reply(ticket, outcome) in w.history
    ensures AnsweredIn(w, order, ticket, outcome)
  {
    var j :| 0 <= j < |w.history| && w.history[j] == Reply(ticket, outcome);
    assert AnsweredBy(w, order, j);
  }

  /** Every answer a client holds is the recorded one, and so has its place in the order. */
  lemma AnswersAreLinearized(run: seq<World>, k: nat, n: Id, ticket: nat) returns (order: Log)
    requires IsRun(run) && k < |run| && n in run[k].nodes
    requires ticket in run[k].nodes[n].answers && run[k].nodes[n].answers[ticket].Answered?
    ensures Linearized(run[k], order)
    ensures AnsweredIn(run[k], order, ticket, run[k].nodes[n].answers[ticket].outcome)
  {
    order := RunsAreLinearizable(run, k);
    RunIsGood(run, k);
    NodeServes(run[k], n);
    RecordedIsAnswered(run[k], order, ticket, run[k].nodes[n].answers[ticket].outcome);
  }
}
