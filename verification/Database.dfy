/** The standalone database (internal/database/database.go): check, journal, apply.  Commands are encoded
    by any codec that can be read back; encoding/json is not part of this model. */
module Database {
  import opened Wrappers
  import opened StateMachine
  import W = Wal

  type Encoder = Command -> W.Bytes
  type Decoder = W.Bytes -> Option<Command>

  /** Valid commands survive encoding, in a record of legal size. */
  ghost predicate Faithful(encode: Encoder, decode: Decoder) {
    forall c {:trigger encode(c)} :: ValidCommand(c) ==> decode(encode(c)) == Some(c) && W.Recordable(encode(c))
  }

  /** The machine that replaying payloads builds; None once one is refused. */
  function Replayed(decode: Decoder, ps: seq<W.Bytes>): Option<State>
    decreases |ps|
  {
    if ps == [] then Some(EMPTY_STATE)
    else
      var before, c := Replayed(decode, ps[..|ps| - 1]), decode(ps[|ps| - 1]);
      if before.None? || c.None? then None
      else
        var (after, out) := Apply(before.value, c.value);
        if out.error.Some? then None else Some(after)
  }

  /** The replay callback given to the journal. */
  function Accepts(decode: Decoder): (seq<W.Bytes>, W.Bytes) -> bool {
    (before, p) => Replayed(decode, before + [p]).Some?
  }

  lemma {:induction false} ReplayedWhole(decode: Decoder, ps: seq<W.Bytes>)
    ensures W.Replays(Accepts(decode), ps) <==> Replayed(decode, ps).Some?
    decreases |ps|
  {
    if ps != [] {
      var front, p := ps[..|ps| - 1], ps[|ps| - 1];
      ReplayedWhole(decode, front);
      assert front + [p] == ps;
      if W.Replays(Accepts(decode), ps) {
        assert Accepts(decode)(ps[..|ps| - 1], ps[|ps| - 1]);
      } else if Replayed(decode, ps).Some? {
        forall i | 0 <= i < |ps| ensures Accepts(decode)(ps[..i], ps[i]) {
          assert i < |front| ==> ps[..i] == front[..i] && ps[i] == front[i];
        }
      }
    }
  }

  /** Every command was new to the machine when it was executed. */
  ghost predicate AllFresh(commands: seq<Command>) {
    forall i {:trigger FreshAt(commands, i)} :: 0 <= i < |commands| ==> FreshAt(commands, i)
  }

  ghost predicate FreshAt(commands: seq<Command>, i: nat)
    requires i < |commands|
  {
    Check(Fold(EMPTY_STATE, commands[..i]), commands[i]) == Fresh
  }

  function Encoded(encode: Encoder, commands: seq<Command>): (ps: seq<W.Bytes>)
    ensures |ps| == |commands|
  {
    seq(|commands|, i requires 0 <= i < |commands| => encode(commands[i]))
  }

  lemma FreshAppends(commands: seq<Command>, c: Command)
    requires AllFresh(commands) && Check(Fold(EMPTY_STATE, commands), c) == Fresh
    ensures AllFresh(commands + [c])
    ensures Fold(EMPTY_STATE, commands + [c]) == Apply(Fold(EMPTY_STATE, commands), c).0
  {
    var all := commands + [c];
    assert all[..|all| - 1] == commands;
    forall i | 0 <= i < |all| ensures FreshAt(all, i) {
      assert i < |commands| ==> all[..i] == commands[..i] && all[i] == commands[i] && FreshAt(commands, i);
    }
  }

  lemma FreshFront(commands: seq<Command>)
    requires AllFresh(commands) && commands != []
    ensures var front, c := commands[..|commands| - 1], commands[|commands| - 1];
            AllFresh(front) && front + [c] == commands && Check(Fold(EMPTY_STATE, front), c) == Fresh && ValidCommand(c)
  {
    var front, c := commands[..|commands| - 1], commands[|commands| - 1];
    forall i | 0 <= i < |front| ensures FreshAt(front, i) {
      assert front[..i] == commands[..i] && front[i] == commands[i] && FreshAt(commands, i);
    }
    assert FreshAt(commands, |commands| - 1);
  }

  lemma EncodedAppends(encode: Encoder, commands: seq<Command>, c: Command)
    ensures Encoded(encode, commands + [c]) == Encoded(encode, commands) + [encode(c)]
  {
  }

  lemma ReplayedAppends(decode: Decoder, ps: seq<W.Bytes>, p: W.Bytes, s: State, c: Command)
    requires Replayed(decode, ps) == Some(s) && decode(p) == Some(c) && Check(s, c) == Fresh
    ensures Replayed(decode, ps + [p]) == Some(Apply(s, c).0)
  {
    assert (ps + [p])[..|ps + [p]| - 1] == ps;
  }

  /** A journal of executed commands replays, without error, to their fold. */
  lemma {:induction false} ExecutedReplays(encode: Encoder, decode: Decoder, commands: seq<Command>)
    requires Faithful(encode, decode) && AllFresh(commands)
    ensures W.AllRecordable(Encoded(encode, commands))
    ensures Replayed(decode, Encoded(encode, commands)) == Some(Fold(EMPTY_STATE, commands))
    decreases |commands|
  {
    if commands != [] {
      var front, c := commands[..|commands| - 1], commands[|commands| - 1];
      FreshFront(commands);
      ExecutedReplays(encode, decode, front);
      EncodedAppends(encode, front, c);
      var s := Fold(EMPTY_STATE, front);
      ReplayedAppends(decode, Encoded(encode, front), encode(c), s, c);
    }
  }

  /** The file after `k` bytes of an append of `c` have landed behind the records of `commands`. */
  function FileOf(encode: Encoder, sum: W.Checksum, commands: seq<Command>, c: Command, k: nat): W.Bytes
    requires W.AllRecordable(Encoded(encode, commands)) && W.Recordable(encode(c)) && k <= |W.Frame(sum, encode(c))|
  {
    W.Frames(sum, Encoded(encode, commands)) + W.Frame(sum, encode(c))[..k]
  }

  /** Durability: let `commands` be those acknowledged so far, and `c` one whose append then failed after
      `k` bytes of it had landed.  Reopening finds the records of the acknowledged commands, plus that of `c`
      exactly if all of its bytes had landed, and the machine is the fold of these commands. */
  lemma ReopeningFindsAcknowledged(encode: Encoder, decode: Decoder, sum: W.Checksum, commands: seq<Command>, c: Command, k: nat)
    requires Faithful(encode, decode) && AllFresh(commands) && Check(Fold(EMPTY_STATE, commands), c) == Fresh
    requires k <= |W.Frame(sum, encode(c))|
    ensures W.AllRecordable(Encoded(encode, commands))
    ensures var s := W.Scan(sum, FileOf(encode, sum, commands, c, k));
            var kept := if k == |W.Frame(sum, encode(c))| then commands + [c] else commands;
            && s.Sound? && s.payloads == Encoded(encode, kept) && AllFresh(kept)
            && W.Replays(Accepts(decode), s.payloads)
            && Replayed(decode, s.payloads) == Some(Fold(EMPTY_STATE, kept))
  {
    ExecutedReplays(encode, decode, commands);
    FreshAppends(commands, c);
    ExecutedReplays(encode, decode, commands + [c]);
    W.AcknowledgedSurvive(sum, Encoded(encode, commands), encode(c), k);
    EncodedAppends(encode, commands, c);
    ReplayedWhole(decode, Encoded(encode, commands));
    ReplayedWhole(decode, Encoded(encode, commands + [c]));
  }

  lemma FreshIsApplied(s: State, c: Command)
    requires Check(s, c) == Fresh
    ensures ValidCommand(c) && Apply(s, c).1.error.None?
  {
  }

  datatype ExecuteError = Unavailable | Refused(error: Error)

  class Database {
    const machine: Machine
    const wal: W.Journal
    const encode: Encoder
    ghost const decode: Decoder
    var failed: bool
    var closed: bool
    /** The commands executed since the journal was created. */
    ghost var commands: seq<Command>
    /** The command whose append failed. */
    ghost var inFlight: Option<Command>

    ghost predicate Valid()
      reads this, machine, wal
    {
      && Faithful(encode, decode) && AllFresh(commands)
      && machine.Abs() == Fold(EMPTY_STATE, commands)
      && wal.Valid() && wal.acknowledged == Encoded(encode, commands)
      && (if failed then inFlight.Some? && InFlight(inFlight.value) else !wal.failed)
    }

    /** Part or all of a new command's record follows those of the executed ones. */
    ghost predicate InFlight(c: Command)
      requires Faithful(encode, decode) && W.AllRecordable(Encoded(encode, commands))
      reads this, wal
    {
      && Check(Fold(EMPTY_STATE, commands), c) == Fresh
      && exists k: nat :: k <= |W.Frame(wal.sum, encode(c))| && wal.data == FileOf(encode, wal.sum, commands, c, k)
    }

    /** What a reopening will find: the executed commands, and the one whose append failed exactly if its whole
        record is in the file. */
    ghost function Surviving(): seq<Command>
      requires Valid()
      reads this, machine, wal
    {
      if failed && wal.data == FileOf(encode, wal.sum, commands, inFlight.value, |W.Frame(wal.sum, encode(inFlight.value))|)
      then commands + [inFlight.value] else commands
    }

    constructor Over(machine: Machine, wal: W.Journal, encode: Encoder, ghost decode: Decoder, ghost commands: seq<Command>)
      requires Faithful(encode, decode) && AllFresh(commands) && machine.Abs() == Fold(EMPTY_STATE, commands)
      requires wal.Valid() && !wal.failed && wal.acknowledged == Encoded(encode, commands)
      ensures Valid() && !failed && !closed && this.commands == commands && this.machine == machine && this.wal == wal
      ensures this.encode == encode && this.decode == decode
    {
      this.machine, this.wal, this.encode, this.decode, this.commands := machine, wal, encode, decode, commands;
      failed, closed, inFlight := false, false, None;
    }

    lemma Interrupted(c: Command, was: W.Bytes)
      requires Faithful(encode, decode) && W.AllRecordable(Encoded(encode, commands)) && W.Recordable(encode(c))
      requires Check(Fold(EMPTY_STATE, commands), c) == Fresh && was == W.Frames(wal.sum, Encoded(encode, commands))
      requires was <= wal.data <= was + W.Frame(wal.sum, encode(c))
      ensures InFlight(c)
    {
      var frame := W.Frame(wal.sum, encode(c));
      var k: nat := |wal.data| - |was|;
      assert wal.data == (was + frame)[..|wal.data|] == was + frame[..k];
      assert wal.data == FileOf(encode, wal.sum, commands, c, k);
    }

    /** A duplicate answers from the session and a rejected command says why, neither touching the journal;
        a new command is applied only once its record is durable. */
    method Execute(c: Command, fault: W.WriteFault) returns (out: Outcome, error: Option<ExecuteError>)
      requires Valid()
      modifies this, machine, wal
      ensures Valid() && closed == old(closed)
      ensures old(closed) || old(failed) ==>
                && error == Some(Unavailable) && commands == old(commands) && wal.data == old(wal.data)
                && failed == old(failed) && inFlight == old(inFlight)
      ensures !old(closed) && !old(failed) ==>
                match Check(Fold(EMPTY_STATE, old(commands)), c)
                case Rejected(e) =>
                  error == Some(Refused(e)) && commands == old(commands) && wal.data == old(wal.data) && !failed
                case Duplicate(r) =>
                  error.None? && out == Outcome(r, None) && commands == old(commands) && wal.data == old(wal.data) && !failed
                case Fresh =>
                  if fault == W.Written then
                    && error.None? && !failed && commands == old(commands) + [c]
                    && out == Apply(Fold(EMPTY_STATE, old(commands)), c).1 && out.error.None?
                  else
                    && error == Some(Unavailable) && failed && commands == old(commands) && inFlight == Some(c)
                    && old(wal.data) <= wal.data <= old(wal.data) + W.Frame(wal.sum, encode(c))
    {
      out := Outcome(EMPTY_REPLY, None);
      if closed || failed {
        return out, Some(Unavailable);
      }
      var checked := machine.CheckCommand(c);
      match checked {
        case Rejected(e) => return out, Some(Refused(e));
        case Duplicate(r) => return Outcome(r, None), None;
        case Fresh =>
      }
      out, error := Journalled(c, fault);
    }

    /** A new command is journalled first. */
    method Journalled(c: Command, fault: W.WriteFault) returns (out: Outcome, error: Option<ExecuteError>)
      requires Valid() && !closed && !failed && Check(Fold(EMPTY_STATE, commands), c) == Fresh
      modifies this, machine, wal
      ensures Valid() && closed == old(closed)
      ensures if fault == W.Written then
                && error.None? && !failed && commands == old(commands) + [c]
                && out == Apply(Fold(EMPTY_STATE, old(commands)), c).1 && out.error.None?
              else
                && error == Some(Unavailable) && failed && commands == old(commands) && inFlight == Some(c)
                && old(wal.data) <= wal.data <= old(wal.data) + W.Frame(wal.sum, encode(c))
    {
      hide Check, Apply, W.Frame, FileOf;
      assert Apply(Fold(EMPTY_STATE, commands), c).1.error.None? by {
        FreshIsApplied(Fold(EMPTY_STATE, commands), c);
      }
      out := Outcome(EMPTY_REPLY, None);
      var payload := encode(c);
      assert W.Recordable(payload) by {
        FreshIsApplied(Fold(EMPTY_STATE, commands), c);
      }
      ghost var was := wal.data;
      var appended := wal.Append(payload, fault);
      if !appended {
        failed := true;
        inFlight := Some(c);
        Interrupted(c, was);
        return out, Some(Unavailable);
      }
      FreshAppends(commands, c);
      EncodedAppends(encode, commands, c);
      commands := commands + [c];
      out := machine.ApplyCommand(c);
      error := None;
    }

    method Get(key: Text) returns (value: Text, found: bool, error: Option<ExecuteError>)
      requires Valid()
      ensures error.Some? <==> closed || failed
      ensures error.None? ==> (value, found) == StateMachine.Get(Fold(EMPTY_STATE, commands), key)
    {
      if closed || failed {
        return [], false, Some(Unavailable);
      }
      value, found := machine.Read(key);
      error := None;
    }
  }

  /** Open: recovers the journal and replays it into a new machine. */
  method Open(wal: W.Journal, decode: Decoder) returns (machine: Machine, error: Option<W.OpenError>)
    requires !wal.failed
    modifies wal
    ensures fresh(machine) && !wal.failed
    ensures error.None? <==>
            var s := W.Scan(wal.sum, old(wal.data)); s.Sound? && Replayed(decode, s.payloads).Some?
    ensures error.None? ==>
              && wal.Valid() && wal.acknowledged == W.Scan(wal.sum, old(wal.data)).payloads
              && Some(machine.Abs()) == Replayed(decode, wal.acknowledged)
  {
    machine := new Machine();
    var payloads;
    payloads, error := wal.Recover(Accepts(decode));
    var s := W.Scan(wal.sum, old(wal.data));
    if s.Sound? {
      ReplayedWhole(decode, s.payloads);
    }
    if error.Some? {
      return;
    }
    ReplayInto(machine, decode, payloads);
  }

  lemma FileSurvives(db: Database, k: nat)
    requires db.Valid() && db.failed && k <= |W.Frame(db.wal.sum, db.encode(db.inFlight.value))|
    requires db.wal.data == FileOf(db.encode, db.wal.sum, db.commands, db.inFlight.value, k)
    ensures var s := W.Scan(db.wal.sum, db.wal.data);
            && s.Sound? && s.payloads == Encoded(db.encode, db.Surviving()) && AllFresh(db.Surviving())
            && Replayed(db.decode, s.payloads) == Some(Fold(EMPTY_STATE, db.Surviving()))
  {
    ReopeningFindsAcknowledged(db.encode, db.decode, db.wal.sum, db.commands, db.inFlight.value, k);
  }

  /** What reopening relies on, whether the database has failed or not. */
  lemma SurvivingReplays(db: Database)
    requires db.Valid()
    ensures var s := W.Scan(db.wal.sum, db.wal.data);
            && s.Sound? && s.payloads == Encoded(db.encode, db.Surviving()) && AllFresh(db.Surviving())
            && Replayed(db.decode, s.payloads) == Some(Fold(EMPTY_STATE, db.Surviving()))
  {
    if db.failed {
      var k: nat :| && k <= |W.Frame(db.wal.sum, db.encode(db.inFlight.value))|
                    && db.wal.data == FileOf(db.encode, db.wal.sum, db.commands, db.inFlight.value, k);
      FileSurvives(db, k);
    } else {
      var ps := Encoded(db.encode, db.commands);
      ExecutedReplays(db.encode, db.decode, db.commands);
      assert db.wal.data[..|db.wal.data|] == db.wal.data && db.wal.data[|db.wal.data|..] == [];
      W.ScanIsExact(db.wal.sum, db.wal.data, ps, |db.wal.data|);
    }
  }

  /** Reopening the file of any database, after any failure, succeeds with what survives. */
  method Reopen(db: Database, decode: Decoder) returns (again: Option<Database>)
    requires db.Valid() && decode == db.decode
    ensures again.Some? && fresh(again.value) && again.value.Valid() && !again.value.failed && !again.value.closed
    ensures again.value.commands == db.Surviving()
    ensures again.value.encode == db.encode && again.value.decode == db.decode && again.value.wal.sum == db.wal.sum
  {
    SurvivingReplays(db);
    var wal := new W.Journal.OnFile(db.wal.sum, db.wal.data);
    var machine, error := Open(wal, decode);
    if error.Some? {
      return None;
    }
    var reopened := new Database.Over(machine, wal, db.encode, decode, db.Surviving());
    return Some(reopened);
  }

  method ReplayInto(machine: Machine, decode: Decoder, payloads: seq<W.Bytes>)
    requires machine.Abs() == EMPTY_STATE && Replayed(decode, payloads).Some?
    modifies machine
    ensures Some(machine.Abs()) == Replayed(decode, payloads)
  {
    var i := 0;
    while i < |payloads|
      invariant 0 <= i <= |payloads|
      invariant Some(machine.Abs()) == Replayed(decode, payloads[..i])
    {
      assert payloads[..i + 1][..i] == payloads[..i];
      StartReplays(decode, payloads, i + 1);
      var out := machine.ApplyCommand(decode(payloads[i]).value);
      i := i + 1;
    }
    assert payloads[..i] == payloads;
  }

  lemma {:induction false} StartReplays(decode: Decoder, ps: seq<W.Bytes>, i: nat)
    requires Replayed(decode, ps).Some? && i <= |ps|
    ensures Replayed(decode, ps[..i]).Some?
    decreases |ps|
  {
    if i < |ps| {
      StartReplays(decode, ps[..|ps| - 1], i);
      assert ps[..|ps| - 1][..i] == ps[..i];
    } else {
      assert ps[..i] == ps;
    }
  }
}
