/** What an answer means to a client that retries: its command was executed exactly once, and this is the outcome. */
module Acknowledged {
  import opened RaftTypes
  import opened Cluster
  import opened Linearizability
  import opened Sessions
  import SM = StateMachine

  /** The commands of the entries 1 to `k`. */
  function CommandsOf(log: Log, k: nat): seq<SM.Command>
    requires k < |log|
  {
    if k == 0 then []
    else CommandsOf(log, k - 1) + if log[k].command.Some? then [log[k].command.value] else []
  }

  lemma {:induction false} MachineIsAfter(log: Log, k: nat)
    requires k < |log|
    ensures MachineAt(log, k) == After(CommandsOf(log, k))
  {
    if k > 0 {
      MachineIsAfter(log, k - 1);
      if log[k].command.Some? {
        AfterNext(CommandsOf(log, k - 1), log[k].command.value);
      } else {
        assert CommandsOf(log, k) == CommandsOf(log, k - 1);
      }
    }
  }

  /** Of all commands `cmds`, exactly the one at `i` is `c` and took effect, with outcome `out`. */
  ghost predicate OnlyExecution(cmds: seq<SM.Command>, c: SM.Command, i: nat, out: SM.Outcome) {
    && i < |cmds| && cmds[i] == c && Executes(cmds, i) && out == SM.Apply(After(cmds[..i]), c).1
    && forall j :: 0 <= j < |cmds| && cmds[j] == c && Executes(cmds, j) ==> j == i
  }

  lemma ExecutesOnce(cmds: seq<SM.Command>, c: SM.Command, i: nat, j: nat)
    requires i < |cmds| && j < |cmds| && cmds[i] == c == cmds[j] && Executes(cmds, i) && Executes(cmds, j)
    ensures i == j
  {
  }

  lemma SuccessIsExecution(before: seq<SM.Command>, c: SM.Command) returns (i: nat)
    requires SM.Apply(After(before), c).1.error.None?
    ensures OnlyExecution(before + [c], c, i, SM.Apply(After(before), c).1)
  {
    var cmds, out := before + [c], SM.Apply(After(before), c).1;
    AnswersExactly(before, c);
    hide Executes;
    if Now(before, c) {
      i := |before|;
      assert cmds[..i] == before;
    } else {
      i :| 0 <= i < |before| && Executes(before, i) && before[i] == c && out == SM.Apply(After(before[..i]), c).1;
      ExecutesStays(before, c, i);
    }
    forall j | 0 <= j < |cmds| && cmds[j] == c && Executes(cmds, j) ensures j == i {
      ExecutesOnce(cmds, c, i, j);
    }
  }

  /** A command acknowledged to a client was executed exactly once among all that the order has up to its place, and
      the client heard what that execution gave; the machine at that place is what those commands make. */
  lemma AcknowledgedOnce(run: seq<World>, k: nat, n: Id, ticket: nat) returns (order: Log, i: nat)
    requires IsRun(run) && k < |run| && n in run[k].nodes
    requires ticket in run[k].nodes[n].answers && run[k].nodes[n].answers[ticket].Answered?
    requires ticket < |run[k].history| && run[k].history[ticket].Invoke? && run[k].history[ticket].readKey.None?
    requires run[k].history[ticket].entry.command.Some? && run[k].nodes[n].answers[ticket].outcome.error.None?
    ensures Linearized(run[k], order) && TookEffect(run[k], order, ticket)
    ensures var place, c := PlaceOf(run[k], ticket), run[k].history[ticket].entry.command.value;
            && MachineAt(order, place) == After(CommandsOf(order, place))
            && OnlyExecution(CommandsOf(order, place), c, i, run[k].nodes[n].answers[ticket].outcome)
  {
    order := AnswersAreLinearized(run, k, n, ticket);
    var place, c := PlaceOf(run[k], ticket), run[k].history[ticket].entry.command.value;
    MachineIsAfter(order, place - 1);
    MachineIsAfter(order, place);
    i := SuccessIsExecution(CommandsOf(order, place - 1), c);
  }
}
