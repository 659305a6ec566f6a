/** The clients' view: which machine a node has applied, whom it will answer, and in what order
    operations take effect. */
module History {
  import opened RaftTypes
  import opened NodeModel
  import opened Cluster
  import opened Invariant
  import SM = StateMachine

  /** The running machine and the checkpoint are what the log prescribes. */
  ghost predicate Applied(s: Node) {
    Shaped(s) && s.machine == MachineAt(s.log, s.applied) && s.snapshot == MachineAt(s.log, s.base)
  }

  /** The waiter at index `i` waits for the node's own proposal of its current term. */
  ghost predicate WaiterOK(w: World, n: Id, s: Node, i: nat) {
    && i in s.pending && s.applied < i < |s.log|
    && s.pending[i].ticket < |w.history|
    && w.history[s.pending[i].ticket] == Invoke(n, s.term, s.log[i], s.pending[i].readKey)
    && s.log[i].term == s.term && s.log[i].index == i
  }

  ghost predicate PendingPart(w: World, n: Id, s: Node) {
    && (s.role != Leader ==> s.pending == map[])
    && (forall i {:trigger WaiterOK(w, n, s, i)} :: i in s.pending ==> WaiterOK(w, n, s, i))
    && (forall i, k :: i in s.pending && 0 <= k < |w.history| ==> w.history[k].Invoke? || w.history[k].op != s.pending[i].ticket)
  }

  /** Every answer a client was given is recorded. */
  ghost predicate AnswersPart(w: World, s: Node) {
    forall t :: t in s.answers && s.answers[t].Answered? ==> Reply(t, s.answers[t].outcome) in w.history
  }

  ghost predicate InvokeOK(w: World, e: Event) {
    e.Invoke? ==>
      && e.term in w.reigns && w.reigns[e.term].leader == e.node
      && 0 < e.entry.index < |w.reigns[e.term].log| && w.reigns[e.term].log[e.entry.index] == e.entry
      && e.entry.term == e.term
  }

  /** The answered operation lies under an entry chosen in its own term, and its answer is the
      sequential machine's. */
  ghost predicate ReplyAt(w: World, op: Event, outcome: SM.Outcome, i: nat) {
    && op.Invoke? && Chosen(w, op.term, i) && 0 < op.entry.index <= i
    && w.reigns[op.term].log[op.entry.index] == op.entry
    && outcome == AnswerAt(w.reigns[op.term].log, op.entry.index, op.readKey)
  }

  ghost predicate ReplyOK(w: World, k: nat)
    requires k < |w.history|
  {
    w.history[k].Reply? ==>
      w.history[k].op < k && exists i :: ReplyAt(w, w.history[w.history[k].op], w.history[k].outcome, i)
  }

  ghost predicate EventOK(w: World, k: nat)
    requires k < |w.history|
  {
    InvokeOK(w, w.history[k]) && ReplyOK(w, k)
  }

  ghost predicate NodesServe(w: World) {
    forall n {:trigger PendingPart(w, n, w.nodes[n])} {:trigger Applied(w.nodes[n])} :: n in w.nodes ==>
      Applied(w.nodes[n]) && PendingPart(w, n, w.nodes[n]) && AnswersPart(w, w.nodes[n])
  }

  ghost predicate EventsOK(w: World) {
    && (forall k {:trigger EventOK(w, k)} :: 0 <= k < |w.history| ==> EventOK(w, k))
    && (forall j, k :: 0 <= j < k < |w.history| ==> InOrder(w.history[j], w.history[k]))
    && (forall j, k :: 0 <= j < k < |w.history| && w.history[j].Reply? && w.history[k].Reply?
          ==> w.history[j].op != w.history[k].op)
  }

  /** Of two proposals in one term, the later one has the greater index. */
  ghost predicate InOrder(a: Event, b: Event) {
    a.Invoke? && b.Invoke? && a.term == b.term ==> a.entry.index < b.entry.index
  }

  ghost predicate Served(w: World) {
    NodesServe(w) && EventsOK(w)
  }

  // ---- What outlives a step ----

  lemma InvokeGrows(w: World, w': World, e: Event)
    requires Grows(w, w') && InvokeOK(w, e)
    ensures InvokeOK(w', e)
  {
    if e.Invoke? {
      assert Agree(w.reigns[e.term].log, w'.reigns[e.term].log, |w.reigns[e.term].log|);
    }
  }

  lemma ReplyGrows(w: World, w': World, k: nat)
    requires Grows(w, w') && k < |w.history| && w.history <= w'.history && ReplyOK(w, k)
    ensures ReplyOK(w', k)
  {
    if w.history[k].Reply? {
      var op, outcome := w.history[w.history[k].op], w.history[k].outcome;
      var i :| ReplyAt(w, op, outcome, i);
      ChosenGrows(w, w', op.term, i);
      assert Agree(w.reigns[op.term].log, w'.reigns[op.term].log, |w.reigns[op.term].log|);
      AnswerAgrees(w.reigns[op.term].log, w'.reigns[op.term].log, op.entry.index, op.readKey);
      assert ReplyAt(w', w'.history[w'.history[k].op], outcome, i);
    }
  }

  lemma EventsGrow(w: World, w': World)
    requires EventsOK(w) && Grows(w, w') && w'.history == w.history
    ensures EventsOK(w')
  {
    forall k | 0 <= k < |w'.history| ensures EventOK(w', k) {
      assert EventOK(w, k);
      InvokeGrows(w, w', w.history[k]);
      ReplyGrows(w, w', k);
    }
  }

  /** A node whose waiters are all still the same node's, in the same term, on the same log. */
  lemma PendingGrows(w: World, w': World, n: Id, s: Node, s': Node)
    requires PendingPart(w, n, s) && w'.history == w.history
    requires s'.pending == map[] || (s'.role == Leader && s'.term == s.term && s.log <= s'.log && s'.applied == s.applied)
    requires forall i :: i in s'.pending ==> i in s.pending && s'.pending[i] == s.pending[i]
    ensures PendingPart(w', n, s')
  {
    forall i | i in s'.pending ensures WaiterOK(w', n, s', i) {
      assert WaiterOK(w, n, s, i);
    }
  }

  ghost predicate OthersSame(w: World, w': World, n: Id) {
    n in w.nodes && w'.nodes.Keys == w.nodes.Keys && forall m :: m in w'.nodes && m != n ==> w'.nodes[m] == w.nodes[m]
  }

  /** Any step that keeps the history: only the stepping node needs a look. */
  lemma ServedInherits(w: World, w': World, n: Id)
    requires Served(w) && Grows(w, w') && OthersSame(w, w', n) && w'.history == w.history
    requires Applied(w'.nodes[n]) && PendingPart(w', n, w'.nodes[n]) && AnswersPart(w', w'.nodes[n])
    ensures Served(w')
  {
    EventsGrow(w, w');
    forall m | m in w'.nodes
      ensures Applied(w'.nodes[m]) && PendingPart(w', m, w'.nodes[m]) && AnswersPart(w', w'.nodes[m])
    {
      if m != n {
        assert PendingPart(w, m, w.nodes[m]);
        PendingGrows(w, w', m, w.nodes[m], w.nodes[m]);
      }
    }
  }
}
