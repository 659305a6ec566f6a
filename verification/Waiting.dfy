/** Whoever was accepted waits, has an answer, or has given up, as long as the node is not restarted; and whoever has
    an answer gets no other. */
module Waiting {
  import opened Wrappers
  import opened RaftTypes
  import opened NodeModel
  import opened Cluster
  import opened History
  import opened Serving
  import opened Safety
  import opened Chains
  import opened Handlers
  import opened Simulation
  import opened Calls
  import opened Tickets
  import SM = StateMachine

  /** No two waiters have the same ticket, no one who waits has an answer, and all tickets are of operations invoked. */
  ghost predicate Tidy(s: Node, tickets: nat) {
    && (forall i, j :: i in s.pending && j in s.pending && s.pending[i].ticket == s.pending[j].ticket ==> i == j)
    && (forall i :: i in s.pending ==> s.pending[i].ticket !in s.answers && s.pending[i].ticket < tickets)
    && (forall t :: t in s.answers ==> t < tickets)
  }

  /** The ticket for index `i` has its answer, or someone still waits for it. */
  ghost predicate Kept(s: Node, i: nat, t: nat) {
    t in s.answers || (i in s.pending && s.pending[i].ticket == t)
  }

  lemma AttendedIsTidy(s: Node, s': Node, tickets: nat)
    requires Attends(s, s') && Tidy(s, tickets)
    ensures Tidy(s', tickets)
  {
    forall t | t in s'.answers && t !in s.answers ensures t < tickets && !Waits(s', t) {
      var i :| i in s.pending && i !in s'.pending && s.pending[i].ticket == t;
    }
    forall i | i in s'.pending ensures s'.pending[i].ticket !in s'.answers {
      assert Waits(s', s'.pending[i].ticket);
    }
  }

  lemma AttendedIsKept(s: Node, s': Node, i: nat, t: nat)
    requires Attends(s, s') && Kept(s, i, t)
    ensures Kept(s', i, t)
  {
  }

  /** An answer given before is never replaced. */
  lemma AttendedSaysTheSame(s: Node, s': Node, tickets: nat, t: nat)
    requires Attends(s, s') && Tidy(s, tickets) && t in s.answers
    ensures t in s'.answers && s'.answers[t] == s.answers[t]
  {
    assert !Waits(s, t);
  }

  // ---- Calls ----

  /** What the handlers other than these do to the waiters and the answers. */
  predicate Ordinary(c: Call) {
    !c.OnSubmit? && !c.OnCancel? && !c.OnRestart?
  }

  lemma CallAttends(w: World, c: Call)
    requires Good(w) && Genuine(w, c) && Ordinary(c)
    ensures Attends(w.nodes[c.n], Handled(w, c).0)
  {
    hide Good, Attends;
    var cfg, s := ConfigOf(w, c.n), w.nodes[c.n];
    match c {
      case OnTimeout(_) => TimeoutAttends(cfg, s);
      case OnVote(_, req) => HandleVoteAttends(cfg, s, req);
      case OnVoteReply(_, from, req, resp) => HandleVoteResponseAttends(cfg, s, from, req, resp);
      case OnAppend(_, req) => HandleAppendAttends(cfg, s, req);
      case OnAppendReply(_, from, req, resp) => HandleAppendResponseAttends(cfg, s, from, req, resp);
      case OnSend(_, _) => AttendsSame(s, s);
      case OnPause(_, paused) => PausingAttends(s, paused);
      case OnSubmit(_, _, _) =>
      case OnCancel(_, _, _) =>
      case OnRestart(_) =>
    }
  }

  /** The node with the waiter of a proposal just accepted. */
  function WithWaiter(s: Node, readKey: Option<SM.Text>, ticket: nat): Node {
    s.(pending := s.pending[|s.log| := Waiter(ticket, readKey)])
  }

  /** Nobody waits behind the log. */
  lemma NoWaiterBehind(w: World, n: Id)
    requires Good(w) && n in w.nodes
    ensures |w.nodes[n].log| !in w.nodes[n].pending
  {
    NodeServes(w, n);
    forall i | i in w.nodes[n].pending ensures i < |w.nodes[n].log| {
      assert WaiterOK(w, n, w.nodes[n], i);
    }
  }

  lemma WithWaiterIsTidy(s: Node, readKey: Option<SM.Text>, ticket: nat)
    requires Tidy(s, ticket) && |s.log| !in s.pending
    ensures Tidy(WithWaiter(s, readKey, ticket), ticket + 1) && Kept(WithWaiter(s, readKey, ticket), |s.log|, ticket)
    ensures forall i, t :: Kept(s, i, t) ==> Kept(WithWaiter(s, readKey, ticket), i, t)
  {
  }

  /** A ticket that is out, waiting or answered, belongs to an operation on record. */
  lemma AnswerIsOnRecord(w: World, n: Id, t: nat)
    requires Good(w) && n in w.nodes && t in w.nodes[n].answers && w.nodes[n].answers[t].Answered?
    ensures t < |w.history|
  {
    NodeServes(w, n);
    var k :| 0 <= k < |w.history| && w.history[k] == Reply(t, w.nodes[n].answers[t].outcome);
    assert EventOK(w, k);
  }

  lemma WaiterIsOnRecord(w: World, n: Id, i: nat)
    requires Good(w) && n in w.nodes && i in w.nodes[n].pending
    ensures w.nodes[n].pending[i].ticket < |w.history|
  {
    NodeServes(w, n);
    assert WaiterOK(w, n, w.nodes[n], i);
  }

  /** What one call does for node `n`'s tickets. */
  ghost predicate Keeps(w: World, c: Call, w': World, n: Id) {
    && n in w.nodes && n in w'.nodes
    && Tidy(w'.nodes[n], |w'.history|)
    && (forall i, t :: Kept(w.nodes[n], i, t) && c != OnRestart(n) && c != OnCancel(n, i, t) ==> Kept(w'.nodes[n], i, t))
    && (forall t :: t in w.nodes[n].answers && c != OnRestart(n) ==>
          t in w'.nodes[n].answers && w'.nodes[n].answers[t] == w.nodes[n].answers[t])
  }

  lemma OtherKeeps(w: World, c: Call, w': World, n: Id)
    requires Called(w, c, w') && n in w.nodes && n != c.n && Tidy(w.nodes[n], |w.history|)
    ensures Keeps(w, c, w', n)
  {
    hide Handled, Genuine;
    assert w'.nodes[n] == w.nodes[n];
    LaterIsTidy(w.nodes[n], |w.history|, |w'.history|);
  }

  lemma LaterIsTidy(s: Node, tickets: nat, more: nat)
    requires Tidy(s, tickets) && tickets <= more
    ensures Tidy(s, more)
  {
  }

  lemma AttendedKeeps(w: World, c: Call, w': World, s: Node)
    requires c.n in w.nodes && c.n in w'.nodes && Attends(s, w'.nodes[c.n]) && Tidy(s, |w'.history|)
    requires s.answers == w.nodes[c.n].answers
    requires forall i, t :: Kept(w.nodes[c.n], i, t) && c != OnCancel(c.n, i, t) ==> Kept(s, i, t)
    ensures Keeps(w, c, w', c.n)
  {
    var s' := w'.nodes[c.n];
    AttendedIsTidy(s, s', |w'.history|);
    forall i, t | Kept(w.nodes[c.n], i, t) && c != OnCancel(c.n, i, t) ensures Kept(s', i, t) {
      AttendedIsKept(s, s', i, t);
    }
    forall t | t in s.answers ensures t in s'.answers && s'.answers[t] == s.answers[t] {
      AttendedSaysTheSame(s, s', |w'.history|, t);
    }
  }

  lemma SubmitKeeps(w: World, c: Call, w': World)
    requires Good(w) && Called(w, c, w') && Good(w') && c.OnSubmit? && Tidy(w.nodes[c.n], |w.history|)
    ensures Keeps(w, c, w', c.n)
    ensures var (_, index, error) := Submit(ConfigOf(w, c.n), w.nodes[c.n], c.command, c.readKey, |w.history|);
            error.None? ==> index.Some? && Kept(w'.nodes[c.n], index.value, |w.history|)
  {
    hide Good, Submit, Attends;
    var cfg, s, h := ConfigOf(w, c.n), w.nodes[c.n], |w.history|;
    var s' := w'.nodes[c.n];
    var (_, index, error) := Submit(cfg, s, c.command, c.readKey, h);
    SubmitAttends(cfg, s, c.command, c.readKey, h);
    if error.Some? {
      LaterIsTidy(s, h, |w'.history|);
      AttendedKeeps(w, c, w', s);
    } else {
      var r := WithWaiter(s, c.readKey, h);
      NoWaiterBehind(w, c.n);
      WithWaiterIsTidy(s, c.readKey, h);
      AttendedIsKept(r, s', |s.log|, h);
      assert h < |w'.history| by {
        var _ := CallIsSteps(w, c);
        SubmitAnswers(cfg, s, c.command, c.readKey, h);
        if h in s'.answers {
          AnswerIsOnRecord(w', c.n, h);
        } else {
          WaiterIsOnRecord(w', c.n, |s.log|);
        }
      }
      LaterIsTidy(r, h + 1, |w'.history|);
      AttendedKeeps(w, c, w', r);
    }
  }

  lemma CancelKeeps(w: World, c: Call, w': World)
    requires Called(w, c, w') && c.OnCancel? && Tidy(w.nodes[c.n], |w.history|)
    ensures Keeps(w, c, w', c.n)
  {
    var s, s' := w.nodes[c.n], w'.nodes[c.n];
    CancelRemovesOwn(s, c.index, c.ticket);
    LaterIsTidy(s, |w.history|, |w'.history|);
  }

  lemma RestartKeeps(w: World, c: Call, w': World)
    requires Called(w, c, w') && c.OnRestart?
    ensures Keeps(w, c, w', c.n)
  {
    hide Restart;
    var s := w.nodes[c.n];
    RestartAttends(ConfigOf(w, c.n), s);
    AttendedIsTidy(Reopened(s), w'.nodes[c.n], |w'.history|);
  }

  lemma CallKeeps(w: World, c: Call, w': World, n: Id)
    requires Good(w) && Called(w, c, w') && Good(w') && n in w.nodes && Tidy(w.nodes[n], |w.history|)
    ensures Keeps(w, c, w', n)
  {
    hide Good, Handled, Attends, Keeps, Tidy;
    if n != c.n {
      OtherKeeps(w, c, w', n);
    } else if c.OnSubmit? {
      SubmitKeeps(w, c, w');
    } else if c.OnCancel? {
      CancelKeeps(w, c, w');
    } else if c.OnRestart? {
      RestartKeeps(w, c, w');
    } else {
      CallAttends(w, c);
      LaterIsTidy(w.nodes[n], |w.history|, |w'.history|);
      AttendedKeeps(w, c, w', w.nodes[n]);
    }
  }

  // ---- Runs ----

  /** Any call but a restart of node `n` and the cancelling of this ticket. */
  ghost function Sparing(n: Id, i: nat, t: nat): (World, World) -> bool {
    (w, w') => exists c :: Called(w, c, w') && c != OnRestart(n) && c != OnCancel(n, i, t)
  }

  /** Any call but a restart of node `n`. */
  ghost function Running(n: Id): (World, World) -> bool {
    (w, w') => exists c :: Called(w, c, w') && c != OnRestart(n)
  }

  ghost predicate TidyAt(w: World, n: Id) {
    Good(w) && n in w.nodes && Tidy(w.nodes[n], |w.history|)
  }

  lemma CallKeepsTidy(w: World, c: Call, w': World, n: Id)
    requires TidyAt(w, n) && Called(w, c, w')
    ensures TidyAt(w', n) && Keeps(w, c, w', n)
  {
    hide Good, Handled, Genuine;
    ReachedIsGood(w, w');
    CallKeeps(w, c, w', n);
  }

  lemma RunIsTidy(w0: World, w: World, n: Id)
    requires Init(w0) && ByCalls(w0, w) && n in w0.nodes
    ensures TidyAt(w, n)
  {
    InitIsGood(w0);
    assert w0.nodes[n] == BLANK;
    hide Good, Called;
    var chain :| Joins(chain, AnyCall(), w0, w);
    forall v, v' | TidyAt(v, n) && AnyCall()(v, v') ensures TidyAt(v', n) {
      var c :| Called(v, c, v');
      CallKeepsTidy(v, c, v', n);
    }
    Invariantly(chain, AnyCall(), v => TidyAt(v, n), |chain| - 1);
  }

  /** A proposal that was accepted is not forgotten.  Whatever calls follow, as long as its node is not restarted and
      the ticket not cancelled, its client waits at the index it was given or has been told. */
  lemma AcceptedIsKept(w0: World, w: World, w1: World, w2: World, c: Call)
    requires Init(w0) && ByCalls(w0, w) && c.n in w0.nodes && c.OnSubmit? && Called(w, c, w1)
    requires var (_, index, error) := Submit(ConfigOf(w, c.n), w.nodes[c.n], c.command, c.readKey, |w.history|);
             error.None? && index.Some? && Linked(Sparing(c.n, index.value, |w.history|), w1, w2)
    ensures c.n in w2.nodes && Kept(w2.nodes[c.n], |w.nodes[c.n].log|, |w.history|)
  {
    RunIsTidy(w0, w, c.n);
    SubmittedIsKept(w, c, w1);
    StaysKept(w1, w2, c.n, |w.nodes[c.n].log|, |w.history|);
  }

  lemma StaysKept(w: World, w': World, n: Id, i: nat, t: nat)
    requires TidyAt(w, n) && Kept(w.nodes[n], i, t) && Linked(Sparing(n, i, t), w, w')
    ensures n in w'.nodes && Kept(w'.nodes[n], i, t)
  {
    hide Good, Called, Kept;
    var chain :| Joins(chain, Sparing(n, i, t), w, w');
    forall v, v' | TidyAt(v, n) && Kept(v.nodes[n], i, t) && Sparing(n, i, t)(v, v') ensures TidyAt(v', n) && Kept(v'.nodes[n], i, t) {
      var c :| Called(v, c, v') && c != OnRestart(n) && c != OnCancel(n, i, t);
      CallKeepsTidy(v, c, v', n);
    }
    Invariantly(chain, Sparing(n, i, t), v => TidyAt(v, n) && Kept(v.nodes[n], i, t), |chain| - 1);
  }

  lemma SubmittedIsKept(w: World, c: Call, w1: World)
    requires TidyAt(w, c.n) && c.OnSubmit? && Called(w, c, w1)
    requires Submit(ConfigOf(w, c.n), w.nodes[c.n], c.command, c.readKey, |w.history|).2.None?
    ensures TidyAt(w1, c.n) && Kept(w1.nodes[c.n], |w.nodes[c.n].log|, |w.history|)
    ensures Submit(ConfigOf(w, c.n), w.nodes[c.n], c.command, c.readKey, |w.history|).1 == Some(|w.nodes[c.n].log|)
  {
    hide Good, Submit;
    CallKeepsTidy(w, c, w1, c.n);
    SubmitKeeps(w, c, w1);
    SubmitAttends(ConfigOf(w, c.n), w.nodes[c.n], c.command, c.readKey, |w.history|);
  }

  /** Whoever has been told is not told anything else, so a waiter's channel of one place is never full. */
  lemma ToldOnce(w0: World, w: World, w': World, n: Id, t: nat)
    requires Init(w0) && ByCalls(w0, w) && n in w0.nodes && n in w.nodes && t in w.nodes[n].answers
    requires Linked(Running(n), w, w')
    ensures n in w'.nodes && t in w'.nodes[n].answers && w'.nodes[n].answers[t] == w.nodes[n].answers[t]
    ensures forall i :: i in w.nodes[n].pending ==> w.nodes[n].pending[i].ticket != t
  {
    hide Good, Called, Init;
    var a := w.nodes[n].answers[t];
    RunIsTidy(w0, w, n);
    var chain :| Joins(chain, Running(n), w, w');
    forall v, v' | TidyAt(v, n) && t in v.nodes[n].answers && v.nodes[n].answers[t] == a && Running(n)(v, v')
      ensures TidyAt(v', n) && t in v'.nodes[n].answers && v'.nodes[n].answers[t] == a
    {
      var c :| Called(v, c, v') && c != OnRestart(n);
      CallKeepsTidy(v, c, v', n);
    }
    Invariantly(chain, Running(n), v => TidyAt(v, n) && t in v.nodes[n].answers && v.nodes[n].answers[t] == a, |chain| - 1);
  }
}
