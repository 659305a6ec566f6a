/** The replicated key-value machine (internal/statemachine/machine.go): SET, DELETE and CAS
    with one retry session per client.  Text is a byte sequence, as a Go string is. */
module StateMachine {
  import opened Wrappers

  type byte = b: nat | b < 256
  type Text = seq<byte>

  const MAX_VALUE_BYTES: nat := 1048576

  datatype Command = Command(
    clientId: Text, requestId: nat, operation: string, key: Text, value: Text, expected: Text)
  datatype Reply = Reply(value: Text, found: bool, applied: bool, conflict: bool)
  datatype Error = Invalid | Stale | Reused
  datatype Session = Session(command: Command, reply: Reply)

  /** A machine's whole state; a snapshot carries exactly this. */
  datatype State = State(values: map<Text, Text>, sessions: map<Text, Session>, count: nat)

  /** What `check` reports: a command never seen, an exact repeat, or a rejection. */
  datatype Checked = Fresh | Duplicate(reply: Reply) | Rejected(error: Error)
  /** What `Apply` returns: a result and possibly an error. */
  datatype Outcome = Outcome(reply: Reply, error: Option<Error>)

  const EMPTY_STATE := State(map[], map[], 0)
  const EMPTY_REPLY := Reply([], false, false, false)

  predicate Continuation(b: byte) { 0x80 <= b <= 0xBF }

  /** The number of bytes of the well-formed UTF-8 sequence that starts `s`, or 0 if there is none. */
  function LeadingRune(s: Text): (n: nat)
    requires |s| > 0
    ensures n <= |s|
  {
    if s[0] < 0x80 then 1
    else if 0xC2 <= s[0] <= 0xDF then
      if |s| >= 2 && Continuation(s[1]) then 2 else 0
    else if 0xE0 <= s[0] <= 0xEF then
      if |s| >= 3 && Continuation(s[1]) && Continuation(s[2])
         && (s[0] == 0xE0 ==> s[1] >= 0xA0) && (s[0] == 0xED ==> s[1] <= 0x9F) then 3 else 0
    else if 0xF0 <= s[0] <= 0xF4 then
      if |s| >= 4 && Continuation(s[1]) && Continuation(s[2]) && Continuation(s[3])
         && (s[0] == 0xF0 ==> s[1] >= 0x90) && (s[0] == 0xF4 ==> s[1] <= 0x8F) then 4 else 0
    else 0
  }

  predicate ValidString(s: Text)
    decreases |s|
  {
    s == [] || (LeadingRune(s) > 0 && ValidString(s[LeadingRune(s)..]))
  }

  predicate ValidCommand(c: Command) {
    && ValidString(c.clientId) && ValidString(c.key) && ValidString(c.value) && ValidString(c.expected)
    && 1 <= |c.clientId| <= 128 && c.requestId != 0
    && 1 <= |c.key| <= 1024
    && |c.value| <= MAX_VALUE_BYTES && |c.expected| <= MAX_VALUE_BYTES
    && (c.operation == "SET" || c.operation == "DELETE" || c.operation == "CAS")
    && (c.operation == "SET" ==> c.expected == [])
    && (c.operation == "DELETE" ==> c.value == [] && c.expected == [])
  }

  function Check(s: State, c: Command): Checked {
    if !ValidCommand(c) then Rejected(Invalid)
    else if c.clientId !in s.sessions then Fresh
    else
      var previous := s.sessions[c.clientId];
      if c.requestId < previous.command.requestId then Rejected(Stale)
      else if c.requestId > previous.command.requestId then Fresh
      else if c != previous.command then Rejected(Reused)
      else Duplicate(previous.reply)
  }

  /** The effect of an accepted command on the values, with its result. */
  function Execute(values: map<Text, Text>, c: Command): (map<Text, Text>, Reply) {
    var found := c.key in values;
    var value := if found then values[c.key] else [];
    if c.operation == "SET" then (values[c.key := c.value], Reply(c.value, true, true, false))
    else if c.operation == "DELETE" then (values - {c.key}, Reply(value, found, found, false))
    else if c.operation == "CAS" then
      if found && value == c.expected then (values[c.key := c.value], Reply(c.value, true, true, false))
      else (values, Reply(value, found, false, true))
    else (values, Reply(value, found, false, false))
  }

  function Apply(s: State, c: Command): (State, Outcome) {
    match Check(s, c)
    case Rejected(e) => (s, Outcome(EMPTY_REPLY, Some(e)))
    case Duplicate(r) => (s, Outcome(r, None))
    case Fresh =>
      var (values, reply) := Execute(s.values, c);
      (State(values, s.sessions[c.clientId := Session(c, reply)], s.count + 1), Outcome(reply, None))
  }

  function Get(s: State, key: Text): (Text, bool) {
    if key in s.values then (s.values[key], true) else ([], false)
  }

  /** The machine after a whole command log. */
  function Fold(s: State, log: seq<Command>): State
    decreases |log|
  {
    if log == [] then s else Apply(Fold(s, log[..|log| - 1]), log[|log| - 1]).0
  }

  predicate ValidPair(key: Text, value: Text) {
    1 <= |key| <= 1024 && ValidString(key) && ValidString(value) && |value| <= MAX_VALUE_BYTES
  }

  predicate ValidSession(id: Text, session: Session) {
    session.command.clientId == id && ValidCommand(session.command)
  }

  /** What Restore accepts. */
  predicate ValidState(s: State) {
    && (forall k :: k in s.values ==> ValidPair(k, s.values[k]))
    && (forall id :: id in s.sessions ==> ValidSession(id, s.sessions[id]))
  }

  /** Applying keeps every state one that Restore accepts. */
  lemma ApplyKeepsValid(s: State, c: Command)
    requires ValidState(s)
    ensures ValidState(Apply(s, c).0)
  {
  }

  lemma {:induction false} FoldKeepsValid(s: State, log: seq<Command>)
    requires ValidState(s)
    ensures ValidState(Fold(s, log))
    decreases |log|
  {
    if log != [] {
      FoldKeepsValid(s, log[..|log| - 1]);
      ApplyKeepsValid(Fold(s, log[..|log| - 1]), log[|log| - 1]);
    }
  }

  lemma {:induction false} FoldConcat(s: State, a: seq<Command>, b: seq<Command>)
    ensures Fold(s, a + b) == Fold(Fold(s, a), b)
    decreases |b|
  {
    if b == [] {
      assert a + b == a;
    } else {
      assert (a + b)[..|a + b| - 1] == a + b[..|b| - 1];
      FoldConcat(s, a, b[..|b| - 1]);
    }
  }

  // ---- Exactly once ----

  /** The machine has already answered `c`, or never will accept it. */
  predicate Settled(s: State, c: Command) {
    !ValidCommand(c) || (c.clientId in s.sessions && c.requestId <= s.sessions[c.clientId].command.requestId)
  }

  /** A settled command has no effect at all: values, sessions and count stay. */
  lemma SettledIsNoOp(s: State, c: Command)
    ensures Settled(s, c) <==> Apply(s, c).0 == s
  {
    if !Settled(s, c) {
      assert Apply(s, c).0.count == s.count + 1;
    }
  }

  /** Applying a command settles it, and nothing applied later unsettles it. */
  lemma {:induction false} SettledForever(s: State, c: Command, tail: seq<Command>)
    ensures Settled(Fold(Apply(s, c).0, tail), c)
    decreases |tail|
  {
    if tail != [] {
      SettledForever(s, c, tail[..|tail| - 1]);
    }
  }

  /** The answer to a settled command is frozen, except that it may turn into ErrStale. */
  lemma {:induction false} AnswerFrozen(s: State, c: Command, tail: seq<Command>)
    requires Settled(s, c)
    ensures var again := Apply(Fold(s, tail), c).1;
            again == Apply(s, c).1 || again == Outcome(EMPTY_REPLY, Some(Stale))
    ensures Settled(Fold(s, tail), c)
    decreases |tail|
  {
    if tail != [] {
      AnswerFrozen(s, c, tail[..|tail| - 1]);
    }
  }

  /** A retry: whatever was logged between the first occurrence of a command and a later one, the
      later one changes nothing and answers as the first did, or with ErrStale once the client has
      moved on. */
  lemma RetryIsExactlyOnce(s: State, c: Command, between: seq<Command>)
    ensures var first := Apply(s, c);
            var later := Fold(first.0, between);
            && Apply(later, c).0 == later
            && (Apply(later, c).1 == first.1 || Apply(later, c).1 == Outcome(EMPTY_REPLY, Some(Stale)))
  {
    var first := Apply(s, c);
    SettledForever(s, c, []);
    SettledForever(s, c, between);
    SettledIsNoOp(Fold(first.0, between), c);
    AnswerFrozen(first.0, c, between);
  }

  /** A log with every repeat of an identical command deleted. */
  function Dedup(log: seq<Command>): seq<Command>
    decreases |log|
  {
    if log == [] then []
    else
      var front := Dedup(log[..|log| - 1]);
      if log[|log| - 1] in log[..|log| - 1] then front else front + [log[|log| - 1]]
  }

  lemma {:induction false} LoggedIsSettled(s: State, log: seq<Command>, i: nat)
    requires i < |log|
    ensures Settled(Fold(s, log), log[i])
  {
    var before, after := log[..i], log[i + 1..];
    assert log[..i + 1][..|log[..i + 1]| - 1] == before;
    assert log == log[..i + 1] + after;
    FoldConcat(s, log[..i + 1], after);
    SettledForever(Fold(s, before), log[i], after);
  }

  /** Deleting all repeats leaves the final machine unchanged: retries take effect exactly once. */
  lemma {:induction false} ExactlyOnce(s: State, log: seq<Command>)
    ensures Fold(s, Dedup(log)) == Fold(s, log)
    decreases |log|
  {
    if log != [] {
      var front, c := log[..|log| - 1], log[|log| - 1];
      ExactlyOnce(s, front);
      if c in front {
        var i :| 0 <= i < |front| && front[i] == c;
        LoggedIsSettled(s, front, i);
        SettledIsNoOp(Fold(s, front), c);
      } else {
        assert (Dedup(front) + [c])[..|Dedup(front)|] == Dedup(front);
      }
    }
  }

  /** Dedup keeps the first occurrence of each command and no other. */
  lemma {:induction false} DedupIsDistinct(log: seq<Command>)
    ensures forall c :: c in Dedup(log) <==> c in log
    ensures forall i, j :: 0 <= i < j < |Dedup(log)| ==> Dedup(log)[i] != Dedup(log)[j]
    decreases |log|
  {
    if log != [] {
      DedupIsDistinct(log[..|log| - 1]);
      assert log == log[..|log| - 1] + [log[|log| - 1]];
    }
  }

  /** The machine object.  Its methods are proved against the functions above. */
  class Machine {
    var values: map<Text, Text>
    var sessions: map<Text, Session>
    var count: nat

    ghost function Abs(): State
      reads this
    {
      State(values, sessions, count)
    }

    constructor ()
      ensures Abs() == EMPTY_STATE
    {
      values, sessions, count := map[], map[], 0;
    }

    method CheckCommand(c: Command) returns (checked: Checked)
      ensures checked == Check(Abs(), c)
    {
      if !ValidCommand(c) {
        return Rejected(Invalid);
      }
      if c.clientId in sessions {
        var previous := sessions[c.clientId];
        if c.requestId < previous.command.requestId {
          return Rejected(Stale);
        }
        if c.requestId == previous.command.requestId {
          if c != previous.command {
            return Rejected(Reused);
          }
          return Duplicate(previous.reply);
        }
      }
      return Fresh;
    }

    method ApplyCommand(c: Command) returns (out: Outcome)
      modifies this
      ensures (Abs(), out) == Apply(old(Abs()), c)
    {
      var checked := CheckCommand(c);
      match checked {
        case Rejected(e) => return Outcome(EMPTY_REPLY, Some(e));
        case Duplicate(r) => return Outcome(r, None);
        case Fresh =>
      }
      var found := c.key in values;
      var value := if found then values[c.key] else [];
      var reply := Reply(value, found, false, false);
      if c.operation == "SET" {
        values := values[c.key := c.value];
        reply := Reply(c.value, true, true, false);
      } else if c.operation == "DELETE" {
        values := values - {c.key};
        reply := reply.(applied := found);
      } else if c.operation == "CAS" {
        if found && value == c.expected {
          values := values[c.key := c.value];
          reply := Reply(c.value, true, true, false);
        } else {
          reply := reply.(conflict := true);
        }
      }
      sessions := sessions[c.clientId := Session(c, reply)];
      count := count + 1;
      out := Outcome(reply, None);
    }

    method Read(key: Text) returns (value: Text, found: bool)
      ensures (value, found) == Get(Abs(), key)
    {
      if key in values {
        value, found := values[key], true;
      } else {
        value, found := [], false;
      }
    }

    /** Copies both maps entry by entry, in any order. */
    method Snapshot() returns (s: State)
      ensures s == Abs()
    {
      var copied: map<Text, Text> := map[];
      var keys := values.Keys;
      while keys != {}
        invariant keys <= values.Keys && copied.Keys == values.Keys - keys
        invariant forall k :: k in copied ==> copied[k] == values[k]
      {
        var k :| k in keys;
        copied := copied[k := values[k]];
        keys := keys - {k};
      }
      var saved: map<Text, Session> := map[];
      keys := sessions.Keys;
      while keys != {}
        invariant keys <= sessions.Keys && saved.Keys == sessions.Keys - keys
        invariant forall id :: id in saved ==> saved[id] == sessions[id]
      {
        var id :| id in keys;
        saved := saved[id := sessions[id]];
        keys := keys - {id};
      }
      s := State(copied, saved, count);
    }

    /** Replaces the state only after every key, value and session was validated; otherwise it
        reports ErrInvalid and leaves the machine alone. */
    method Restore(s: State) returns (ok: bool)
      modifies this
      ensures ok <==> ValidState(s)
      ensures Abs() == if ok then s else old(Abs())
    {
      hide ValidPair, ValidSession;
      var keys := s.values.Keys;
      var copied := map[];
      while keys != {}
        invariant keys <= s.values.Keys && copied.Keys == s.values.Keys - keys
        invariant forall k :: k in copied ==> copied[k] == s.values[k] && ValidPair(k, s.values[k])
      {
        var k :| k in keys;
        if !ValidPair(k, s.values[k]) {
          return false;
        }
        copied := copied[k := s.values[k]];
        keys := keys - {k};
      }
      keys := s.sessions.Keys;
      var saved := map[];
      while keys != {}
        invariant keys <= s.sessions.Keys && saved.Keys == s.sessions.Keys - keys
        invariant forall id :: id in saved ==> saved[id] == s.sessions[id] && ValidSession(id, s.sessions[id])
      {
        var id :| id in keys;
        if !ValidSession(id, s.sessions[id]) {
          return false;
        }
        saved := saved[id := s.sessions[id]];
        keys := keys - {id};
      }
      values, sessions, count := copied, saved, s.count;
      return true;
    }
  }

  /** Every machine that any command log can produce survives a snapshot and restore unchanged. */
  method SnapshotRoundTrip(m: Machine, ghost log: seq<Command>) returns (copy: Machine, ok: bool)
    requires m.Abs() == Fold(EMPTY_STATE, log)
    ensures ok && fresh(copy) && copy.Abs() == m.Abs()
  {
    FoldKeepsValid(EMPTY_STATE, log);
    var s := m.Snapshot();
    copy := new Machine();
    ok := copy.Restore(s);
  }
}
