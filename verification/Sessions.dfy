/** What the retry sessions of a machine mean for the log it has applied: which commands were executed, and
    what every later command is told. */
module Sessions {
  import opened Wrappers
  import opened StateMachine

  predicate SameClient(a: Command, b: Command) {
    a.clientId == b.clientId
  }

  /** A valid command takes effect if its client has sent no later or equal request before. */
  predicate Executes(log: seq<Command>, i: nat)
    requires i < |log|
  {
    && ValidCommand(log[i])
    && forall j :: 0 <= j < i && ValidCommand(log[j]) && SameClient(log[j], log[i]) ==> log[j].requestId < log[i].requestId
  }

  /** The last command of its client that took effect. */
  predicate LastExecuted(log: seq<Command>, i: nat)
    requires i < |log|
  {
    && Executes(log, i)
    && forall j :: 0 <= j < |log| && ValidCommand(log[j]) && SameClient(log[j], log[i]) ==> log[j].requestId <= log[i].requestId
  }

  function After(log: seq<Command>): State {
    Fold(EMPTY_STATE, log)
  }

  /** The client's session is that of the command at `i`. */
  ghost predicate SessionOf(log: seq<Command>, id: Text, i: nat)
    requires i < |log|
  {
    && LastExecuted(log, i) && log[i].clientId == id
    && id in After(log).sessions && After(log).sessions[id] == Session(log[i], Apply(After(log[..i]), log[i]).1.reply)
  }

  ghost predicate NeverAsked(log: seq<Command>, id: Text) {
    forall j :: 0 <= j < |log| && ValidCommand(log[j]) ==> log[j].clientId != id
  }

  ghost predicate SessionIsLast(log: seq<Command>, id: Text) {
    if id in After(log).sessions then exists i :: 0 <= i < |log| && SessionOf(log, id, i) else NeverAsked(log, id)
  }

  lemma AfterNext(log: seq<Command>, c: Command)
    ensures After(log + [c]) == Apply(After(log), c).0
  {
    assert (log + [c])[..|log + [c]| - 1] == log;
  }

  lemma ExecutesStays(log: seq<Command>, c: Command, i: nat)
    requires i < |log|
    ensures (log + [c])[..i] == log[..i] && (Executes(log + [c], i) <==> Executes(log, i))
  {
  }

  /** The session of one client, one command later. */
  lemma SessionNext(log: seq<Command>, c: Command, id: Text)
    requires SessionIsLast(log, id)
    ensures SessionIsLast(log + [c], id)
  {
    hide ValidCommand, Execute;
    var s, more := After(log), log + [c];
    AfterNext(log, c);
    assert more[..|log|] == log;
    if id in s.sessions {
      var i :| 0 <= i < |log| && SessionOf(log, id, i);
      ExecutesStays(log, c, i);
      if Check(s, c) == Fresh && c.clientId == id {
        assert SessionOf(more, id, |log|);
      } else {
        assert SessionOf(more, id, i);
      }
    } else if c.clientId == id && ValidCommand(c) {
      assert SessionOf(more, id, |log|);
    }
  }

  /** Every client's session holds the last of its commands that took effect, with the outcome it had. */
  lemma {:induction false} SessionsAreLast(log: seq<Command>, id: Text)
    ensures SessionIsLast(log, id)
    decreases |log|
  {
    if log != [] {
      SessionsAreLast(log[..|log| - 1], id);
      SessionNext(log[..|log| - 1], log[|log| - 1], id);
      assert log == log[..|log| - 1] + [log[|log| - 1]];
    }
  }

  /** The client has executed a later request than `c`. */
  ghost predicate MovedOn(log: seq<Command>, c: Command) {
    exists i :: 0 <= i < |log| && Executes(log, i) && SameClient(log[i], c) && log[i].requestId > c.requestId
  }

  /** The last command that the client executed has the request id of `c`; it is `c` itself, or not. */
  ghost predicate Repeats(log: seq<Command>, c: Command, itself: bool) {
    exists i :: 0 <= i < |log| && LastExecuted(log, i) && SameClient(log[i], c)
                && log[i].requestId == c.requestId && (log[i] == c <==> itself)
  }

  /** The answer is the one that `c` got when it was executed. */
  ghost predicate AnsweredAsThen(log: seq<Command>, c: Command, out: Outcome) {
    exists i :: 0 <= i < |log| && Executes(log, i) && log[i] == c && out == Apply(After(log[..i]), c).1 && out.error.None?
  }

  ghost predicate Now(log: seq<Command>, c: Command) {
    Executes(log + [c], |log|)
  }

  /** What the log says of `c`, when its client's last command that took effect is at `i`. */
  lemma KnownClient(log: seq<Command>, c: Command, i: nat)
    requires i < |log| && LastExecuted(log, i) && SameClient(log[i], c) && ValidCommand(c)
    ensures Now(log, c) <==> c.requestId > log[i].requestId
    ensures MovedOn(log, c) <==> c.requestId < log[i].requestId
    ensures forall itself :: Repeats(log, c, itself) <==> c.requestId == log[i].requestId && (log[i] == c <==> itself)
  {
    var more := log + [c];
    assert forall j :: 0 <= j < |log| ==> more[j] == log[j];
    forall j | 0 <= j < |log| && LastExecuted(log, j) && SameClient(log[j], c) ensures j == i {
    }
  }

  lemma NewClient(log: seq<Command>, c: Command)
    requires NeverAsked(log, c.clientId) && ValidCommand(c)
    ensures Now(log, c) && !MovedOn(log, c) && forall itself :: !Repeats(log, c, itself)
  {
    assert forall j :: 0 <= j < |log| ==> (log + [c])[j] == log[j];
  }

  lemma Unasked(log: seq<Command>, c: Command)
    requires !ValidCommand(c)
    ensures !Now(log, c)
  {
  }

  /** After any log, a command is told exactly what the log says of its client: it is invalid; or the client has
      moved on; or the client used its id for another command; or it was executed already, and hears what it heard
      then; or it is executed now. */
  lemma AnswersExactly(log: seq<Command>, c: Command)
    ensures var s, (after, out) := After(log), Apply(After(log), c);
            && (out.error == Some(Invalid) <==> !ValidCommand(c))
            && (out.error == Some(Stale) <==> ValidCommand(c) && MovedOn(log, c))
            && (out.error == Some(Reused) <==> ValidCommand(c) && Repeats(log, c, false))
            && (out.error.None? <==> ValidCommand(c) && (Now(log, c) || Repeats(log, c, true)))
            && (after != s <==> Now(log, c))
            && (out.error.None? && after == s ==> AnsweredAsThen(log, c, out))
  {
    hide Now, MovedOn, Repeats, ValidCommand, Execute, LastExecuted, Executes, NeverAsked;
    var s := After(log);
    assert Check(s, c) == Fresh ==> Apply(s, c).0.count == s.count + 1;
    SessionsAreLast(log, c.clientId);
    if !ValidCommand(c) {
      Unasked(log, c);
    } else if c.clientId in s.sessions {
      var i :| 0 <= i < |log| && SessionOf(log, c.clientId, i);
      KnownClient(log, c, i);
      assert Executes(log, i) by {
        LastIsExecuted(log, i);
      }
      ExecutedIsFresh(log, i);
      if Check(s, c).Duplicate? {
        assert AnsweredAsThen(log, c, Apply(s, c).1);
      }
    } else {
      NewClient(log, c);
    }
  }

  lemma LastIsExecuted(log: seq<Command>, i: nat)
    requires i < |log| && LastExecuted(log, i)
    ensures Executes(log, i)
  {
  }

  /** What takes effect is new to the machine. */
  lemma ExecutedIsFresh(log: seq<Command>, i: nat)
    requires i < |log| && Executes(log, i)
    ensures Check(After(log[..i]), log[i]) == Fresh
  {
    var s, id := After(log[..i]), log[i].clientId;
    SessionsAreLast(log[..i], id);
    if id in s.sessions {
      var j :| 0 <= j < |log[..i]| && SessionOf(log[..i], id, j);
      assert log[..i][j] == log[j];
    }
  }

  function ExecutedAt(log: seq<Command>): set<nat> {
    set i | 0 <= i < |log| && Executes(log, i)
  }

  lemma ExecutedAtNext(log: seq<Command>, c: Command)
    ensures ExecutedAt(log + [c]) == ExecutedAt(log) + if Now(log, c) then {|log|} else {}
  {
    forall i | 0 <= i < |log| ensures Executes(log + [c], i) <==> Executes(log, i) {
      ExecutesStays(log, c, i);
    }
  }

  lemma CountNext(log: seq<Command>, c: Command)
    ensures After(log + [c]).count == After(log).count + if Now(log, c) then 1 else 0
  {
    hide Now;
    AfterNext(log, c);
    AnswersExactly(log, c);
  }

  /** The machine counts the commands that took effect. */
  lemma {:induction false} CountsExecuted(log: seq<Command>)
    ensures After(log).count == |ExecutedAt(log)|
    decreases |log|
  {
    if log == [] {
      assert ExecutedAt(log) == {};
    } else {
      var front, c := log[..|log| - 1], log[|log| - 1];
      assert log == front + [c];
      CountsExecuted(front);
      CountNext(front, c);
      ExecutedAtNext(front, c);
    }
  }
}
