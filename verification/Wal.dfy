/** The checksummed journal file (internal/storage/wal.go), byte by byte: framing, recovery with a torn
    tail, appending and replacing.  The checksum is any function of the payload. */
module Wal {
  import opened Wrappers
  import opened StateMachine

  type Bytes = seq<byte>
  type u32 = n: nat | n < 0x1_0000_0000
  type Checksum = Bytes -> u32

  const MAX_RECORD_BYTES: nat := 16777216
  const HEADER: nat := 8

  // ---- Framing ----

  function BigEndian(n: u32): (b: Bytes)
    ensures |b| == 4
  {
    [n / 0x100_0000, n / 0x1_0000 % 0x100, n / 0x100 % 0x100, n % 0x100]
  }

  function FromBigEndian(b: Bytes): u32
    requires |b| == 4
  {
    var b0: nat, b1: nat, b2: nat, b3: nat := b[0], b[1], b[2], b[3];
    b0 * 0x100_0000 + b1 * 0x1_0000 + b2 * 0x100 + b3
  }

  lemma BigEndianRoundTrip(n: u32)
    ensures FromBigEndian(BigEndian(n)) == n
  {
    assert n / 0x1_0000 == n / 0x100_0000 * 0x100 + n / 0x1_0000 % 0x100;
    assert n / 0x100 == n / 0x1_0000 * 0x100 + n / 0x100 % 0x100;
  }

  lemma DivideOut(q: nat, r: nat, base: nat)
    requires r < base && (base == 0x100 || base == 0x1_0000 || base == 0x100_0000)
    ensures (q * base + r) / base == q && (q * base + r) % base == r
  {
  }

  lemma FourBytesRoundTrip(b: Bytes)
    requires |b| == 4
    ensures BigEndian(FromBigEndian(b)) == b
  {
    var n: nat := FromBigEndian(b);
    var b0: nat, b1: nat, b2: nat, b3: nat := b[0], b[1], b[2], b[3];
    var high, middle := b0 * 0x100 + b1, b0 * 0x1_0000 + b1 * 0x100 + b2;
    assert n / 0x100 == middle && n % 0x100 == b3 by { DivideOut(middle, b3, 0x100); }
    assert n / 0x1_0000 == high by { DivideOut(high, b2 * 0x100 + b3, 0x1_0000); }
    assert n / 0x100_0000 == b0 by { DivideOut(b0, b1 * 0x1_0000 + b2 * 0x100 + b3, 0x100_0000); }
    assert middle % 0x100 == b2 by { DivideOut(high, b2, 0x100); }
    assert high % 0x100 == b1 by { DivideOut(b0, b1, 0x100); }
  }

  predicate Recordable(p: Bytes) {
    0 < |p| <= MAX_RECORD_BYTES
  }

  function Frame(sum: Checksum, p: Bytes): (b: Bytes)
    requires Recordable(p)
    ensures |b| == HEADER + |p|
  {
    BigEndian(|p|) + BigEndian(sum(p)) + p
  }

  predicate AllRecordable(ps: seq<Bytes>) {
    forall p :: p in ps ==> Recordable(p)
  }

  function Frames(sum: Checksum, ps: seq<Bytes>): Bytes
    requires AllRecordable(ps)
    decreases |ps|
  {
    if ps == [] then [] else Frames(sum, ps[..|ps| - 1]) + Frame(sum, ps[|ps| - 1])
  }

  lemma FramesAppend(sum: Checksum, ps: seq<Bytes>, p: Bytes)
    requires AllRecordable(ps) && Recordable(p)
    ensures AllRecordable(ps + [p])
    ensures Frames(sum, ps + [p]) == Frames(sum, ps) + Frame(sum, p)
  {
    assert (ps + [p])[..|ps + [p]| - 1] == ps;
  }

  lemma FramesOne(sum: Checksum, p: Bytes)
    requires Recordable(p)
    ensures AllRecordable([p]) && Frames(sum, [p]) == Frame(sum, p)
  {
    FramesAppend(sum, [], p);
    assert [] + [p] == [p];
  }

  lemma {:induction false} FramesConcat(sum: Checksum, ps: seq<Bytes>, qs: seq<Bytes>)
    requires AllRecordable(ps) && AllRecordable(qs)
    ensures AllRecordable(ps + qs)
    ensures Frames(sum, ps + qs) == Frames(sum, ps) + Frames(sum, qs)
    decreases |qs|
  {
    if qs == [] {
      assert ps + qs == ps;
    } else {
      var front, q := qs[..|qs| - 1], qs[|qs| - 1];
      FramesConcat(sum, ps, front);
      assert ps + qs == (ps + front) + [q];
      FramesAppend(sum, ps + front, q);
      ConcatAssociates(Frames(sum, ps), Frames(sum, front), Frame(sum, q));
    }
  }

  // ---- Recovery ----

  datatype Damage = BadLength | BadChecksum
  /** A scan finds whole records up to `end`, or a complete record that is damaged. */
  datatype Scanned = Sound(payloads: seq<Bytes>, end: nat) | Corrupt(at: nat, damage: Damage)

  function LengthAt(data: Bytes): u32
    requires |data| >= HEADER
  {
    FromBigEndian(data[..4])
  }

  /** What is left of a record whose writing was cut short: less than a header, or a header with a legal
      length and less than that many bytes. */
  predicate Torn(data: Bytes) {
    |data| < HEADER || (0 < LengthAt(data) <= MAX_RECORD_BYTES && |data| < HEADER + LengthAt(data))
  }

  function Scan(sum: Checksum, data: Bytes): (s: Scanned)
    ensures s.Sound? ==> s.end <= |data|
    decreases |data|
  {
    if |data| < HEADER then Sound([], 0)
    else
      var n := LengthAt(data);
      if n == 0 || n > MAX_RECORD_BYTES then Corrupt(0, BadLength)
      else if |data| < HEADER + n then Sound([], 0)
      else
        var p := data[HEADER..HEADER + n];
        if sum(p) != FromBigEndian(data[4..HEADER]) then Corrupt(0, BadChecksum)
        else After([p], HEADER + n, Scan(sum, data[HEADER + n..]))
  }

  /** A scan continued behind `used` bytes that held the records `ps`. */
  function After(ps: seq<Bytes>, used: nat, s: Scanned): Scanned {
    match s
    case Sound(qs, end) => Sound(ps + qs, used + end)
    case Corrupt(at, damage) => Corrupt(used + at, damage)
  }

  lemma AfterAfter(ps: seq<Bytes>, used: nat, p: Bytes, more: nat, s: Scanned)
    ensures After(ps, used, After([p], more, s)) == After(ps + [p], used + more, s)
  {
    if s.Sound? {
      assert ps + ([p] + s.payloads) == ps + [p] + s.payloads;
    }
  }

  lemma ScanFrame(sum: Checksum, p: Bytes, rest: Bytes)
    requires Recordable(p)
    ensures Scan(sum, Frame(sum, p) + rest) == After([p], HEADER + |p|, Scan(sum, rest))
  {
    var data := Frame(sum, p) + rest;
    assert data[..4] == BigEndian(|p|);
    assert data[4..HEADER] == BigEndian(sum(p));
    assert data[HEADER..HEADER + |p|] == p;
    assert data[HEADER + |p|..] == rest;
    BigEndianRoundTrip(|p|);
    BigEndianRoundTrip(sum(p));
  }

  lemma FramesSplit(sum: Checksum, ps: seq<Bytes>, rest: Bytes)
    requires AllRecordable(ps) && ps != []
    ensures var front, p := ps[..|ps| - 1], ps[|ps| - 1];
            && Frames(sum, ps) + rest == Frames(sum, front) + (Frame(sum, p) + rest)
            && |Frames(sum, ps)| == |Frames(sum, front)| + HEADER + |p|
            && front + [p] == ps
  {
    ConcatAssociates(Frames(sum, ps[..|ps| - 1]), Frame(sum, ps[|ps| - 1]), rest);
  }

  lemma ConcatAssociates(a: Bytes, b: Bytes, c: Bytes)
    ensures (a + b) + c == a + (b + c)
  {
  }

  lemma {:induction false} ScanFrames(sum: Checksum, ps: seq<Bytes>, rest: Bytes)
    requires AllRecordable(ps)
    ensures Scan(sum, Frames(sum, ps) + rest) == After(ps, |Frames(sum, ps)|, Scan(sum, rest))
    decreases |ps|
  {
    var s := Scan(sum, rest);
    if ps == [] {
      assert Frames(sum, ps) + rest == rest;
    } else {
      var front, p := ps[..|ps| - 1], ps[|ps| - 1];
      var whole, tail, used := Frames(sum, ps) + rest, Frame(sum, p) + rest, |Frames(sum, front)|;
      FramesSplit(sum, ps, rest);
      assert Scan(sum, whole) == After(front, used, Scan(sum, tail)) by {
        ScanFrames(sum, front, tail);
      }
      assert Scan(sum, tail) == After([p], HEADER + |p|, s) by {
        ScanFrame(sum, p, rest);
      }
      AfterAfter(front, used, p, HEADER + |p|, s);
    }
  }

  /** Every strict prefix of a record's frame is torn, and a torn file holds no record. */
  lemma PrefixIsTorn(sum: Checksum, p: Bytes, k: nat)
    requires Recordable(p) && k < |Frame(sum, p)|
    ensures Torn(Frame(sum, p)[..k])
  {
    if k >= HEADER {
      assert Frame(sum, p)[..k][..4] == BigEndian(|p|);
      BigEndianRoundTrip(|p|);
    }
  }

  lemma TornScansEmpty(sum: Checksum, tail: Bytes)
    ensures Torn(tail) <==> Scan(sum, tail) == Sound([], 0)
  {
    if |tail| >= HEADER && 0 < LengthAt(tail) <= MAX_RECORD_BYTES && |tail| >= HEADER + LengthAt(tail) {
      var n := LengthAt(tail);
      var rest := Scan(sum, tail[HEADER + n..]);
      if rest.Sound? {
        assert After([tail[HEADER..HEADER + n]], HEADER + n, rest).end > 0;
      }
    }
  }

  /** The round trip, both ways: a scan succeeds with records `ps` and cut `end` exactly when the file is
      the frames of `ps`, `end` bytes long, followed by a torn tail. */
  lemma ScanIsExact(sum: Checksum, data: Bytes, ps: seq<Bytes>, end: nat)
    ensures Scan(sum, data) == Sound(ps, end) <==>
            (AllRecordable(ps) && end <= |data| && data[..end] == Frames(sum, ps) && Torn(data[end..]))
  {
    if Scan(sum, data) == Sound(ps, end) {
      ScanIsSound(sum, data);
    }
    if AllRecordable(ps) && end <= |data| && data[..end] == Frames(sum, ps) && Torn(data[end..]) {
      assert data == Frames(sum, ps) + data[end..];
      TornScansEmpty(sum, data[end..]);
      ScanFrames(sum, ps, data[end..]);
      assert ps + [] == ps;
    }
  }

  lemma FrameOf(sum: Checksum, data: Bytes, n: nat)
    requires |data| >= HEADER && n == LengthAt(data) && 0 < n <= MAX_RECORD_BYTES && |data| >= HEADER + n
    requires sum(data[HEADER..HEADER + n]) == FromBigEndian(data[4..HEADER])
    ensures data[..HEADER + n] == Frame(sum, data[HEADER..HEADER + n])
  {
    FourBytesRoundTrip(data[..4]);
    FourBytesRoundTrip(data[4..HEADER]);
    assert data[..HEADER + n] == data[..4] + data[4..HEADER] + data[HEADER..HEADER + n];
  }

  lemma FramesPrepend(sum: Checksum, p: Bytes, rest: Bytes, qs: seq<Bytes>, end: nat)
    requires Recordable(p) && AllRecordable(qs) && end <= |rest| && rest[..end] == Frames(sum, qs) && Torn(rest[end..])
    ensures var data, cut := Frame(sum, p) + rest, HEADER + |p| + end;
            AllRecordable([p] + qs) && data[..cut] == Frames(sum, [p] + qs) && Torn(data[cut..])
  {
    var data, cut := Frame(sum, p) + rest, HEADER + |p| + end;
    FramesConcat(sum, [p], qs);
    FramesOne(sum, p);
    assert data[..cut] == Frame(sum, p) + rest[..end];
    assert data[cut..] == rest[end..];
  }

  lemma {:induction false} ScanIsSound(sum: Checksum, data: Bytes)
    requires Scan(sum, data).Sound?
    ensures var s := Scan(sum, data);
            AllRecordable(s.payloads) && data[..s.end] == Frames(sum, s.payloads) && Torn(data[s.end..])
    decreases |data|
  {
    if |data| >= HEADER && |data| >= HEADER + LengthAt(data) {
      var n := LengthAt(data);
      var p, rest := data[HEADER..HEADER + n], data[HEADER + n..];
      var t := Scan(sum, rest);
      assert Scan(sum, data) == Sound([p] + t.payloads, HEADER + n + t.end);
      FrameOf(sum, data, n);
      assert data == Frame(sum, p) + rest;
      ScanIsSound(sum, rest);
      FramesPrepend(sum, p, rest, t.payloads, t.end);
    } else {
      assert data[0..] == data;
    }
  }

  /** A header that no append writes, or a whole record whose checksum is wrong. */
  predicate Damaged(sum: Checksum, rest: Bytes, damage: Damage) {
    |rest| >= HEADER &&
    var n := LengthAt(rest);
    match damage
    case BadLength => n == 0 || n > MAX_RECORD_BYTES
    case BadChecksum =>
      0 < n <= MAX_RECORD_BYTES && |rest| >= HEADER + n && sum(rest[HEADER..HEADER + n]) != FromBigEndian(rest[4..HEADER])
  }

  /** Damage is reported only where there is some, and everything before it is whole. */
  lemma {:induction false} DamageIsReal(sum: Checksum, data: Bytes) returns (ps: seq<Bytes>)
    requires Scan(sum, data).Corrupt?
    ensures var s := Scan(sum, data);
            AllRecordable(ps) && s.at <= |data| && data[..s.at] == Frames(sum, ps) && Damaged(sum, data[s.at..], s.damage)
    decreases |data|
  {
    hide FromBigEndian, BigEndian, Frame, Frames;
    ps := [];
    var n := LengthAt(data);
    if Damaged(sum, data, BadLength) || Damaged(sum, data, BadChecksum) {
      NoFrames(sum);
      assert data[0..] == data;
    } else {
      var p, rest := data[HEADER..HEADER + n], data[HEADER + n..];
      var more := DamageIsReal(sum, rest);
      var at := Scan(sum, rest).at;
      FrameOf(sum, data, n);
      ps := [p] + more;
      hide Scan, Damaged, LengthAt;
      assert data == Frame(sum, p) + rest;
      DamagePrepend(sum, p, rest, more, at);
    }
  }

  lemma NoFrames(sum: Checksum)
    ensures Frames(sum, []) == []
  {
  }

  lemma DamagePrepend(sum: Checksum, p: Bytes, rest: Bytes, more: seq<Bytes>, at: nat)
    requires Recordable(p) && AllRecordable(more) && at <= |rest| && rest[..at] == Frames(sum, more)
    ensures var data, cut := Frame(sum, p) + rest, HEADER + |p| + at;
            AllRecordable([p] + more) && data[..cut] == Frames(sum, [p] + more) && data[cut..] == rest[at..]
  {
    var data, cut := Frame(sum, p) + rest, HEADER + |p| + at;
    hide Frame, Frames;
    FramesOne(sum, p);
    FramesConcat(sum, [p], more);
    assert data[..cut] == Frame(sum, p) + rest[..at];
  }

  /** Cutting the torn tail and scanning again finds the same records and nothing to cut. */
  lemma RescanIsIdempotent(sum: Checksum, data: Bytes)
    requires Scan(sum, data).Sound?
    ensures var s := Scan(sum, data); Scan(sum, data[..s.end]) == s
  {
    var s := Scan(sum, data);
    ScanIsExact(sum, data, s.payloads, s.end);
    var kept := data[..s.end];
    assert kept[..s.end] == kept && kept[s.end..] == [];
    ScanIsExact(sum, kept, s.payloads, s.end);
  }

  // ---- The objects ----

  /** How the disk treats one write: all of it reaches the file and is synced, or only `landed` bytes
      (perhaps all) do and the write or the sync reports an error. */
  datatype WriteFault = Written | Failed(landed: nat)

  datatype OpenError = InvalidLength(at: nat) | ChecksumMismatch(at: nat) | ReplayRejected(at: nat)

  /** What reading the next record finds. */
  datatype Read = Ended | CutShort | Bad(damage: Damage) | Whole(payload: Bytes)

  /** The records a replay function accepts one after the other. */
  ghost predicate Replays(replay: (seq<Bytes>, Bytes) -> bool, ps: seq<Bytes>) {
    forall i {:trigger ps[i]} :: 0 <= i < |ps| ==> replay(ps[..i], ps[i])
  }

  class Journal {
    const sum: Checksum
    /** The bytes of the file. */
    var data: Bytes
    var failed: bool
    /** The records whose append was acknowledged, or found at opening. */
    ghost var acknowledged: seq<Bytes>

    /** A journal in use ends with its last acknowledged record; after a failure, part or all of one
        further record may follow. */
    ghost predicate Valid()
      reads this
    {
      && AllRecordable(acknowledged)
      && (!failed ==> data == Frames(sum, acknowledged))
      && (failed ==> exists p: Bytes, k: nat :: CutAt(p, k))
    }

    ghost predicate CutAt(p: Bytes, k: nat)
      requires AllRecordable(acknowledged)
      reads this
    {
      Recordable(p) && k <= |Frame(sum, p)| && data == Frames(sum, acknowledged) + Frame(sum, p)[..k]
    }

    constructor OnFile(sum: Checksum, data: Bytes)
      ensures this.sum == sum && this.data == data && !failed && acknowledged == []
    {
      this.sum, this.data, failed, acknowledged := sum, data, false, [];
    }

    /** Reads one record from where the scan stands. */
    method ReadRecord(rest: Bytes) returns (read: Read)
      ensures match read
              case Ended => rest == []
              case CutShort => rest != [] && Torn(rest)
              case Bad(damage) => Scan(sum, rest) == Corrupt(0, damage)
              case Whole(p) =>
                && HEADER + |p| <= |rest|
                && Scan(sum, rest) == After([p], HEADER + |p|, Scan(sum, rest[HEADER + |p|..]))
    {
      if |rest| == 0 {
        return Ended;
      }
      if |rest| < HEADER {
        return CutShort;
      }
      var length := FromBigEndian(rest[..4]);
      if length == 0 || length > MAX_RECORD_BYTES {
        return Bad(BadLength);
      }
      if |rest| - HEADER < length {
        return CutShort;
      }
      var payload := rest[HEADER..HEADER + length];
      if sum(payload) != FromBigEndian(rest[4..HEADER]) {
        return Bad(BadChecksum);
      }
      return Whole(payload);
    }

    /** OpenJournal's scan: replays whole records in order, cuts only an incomplete last one, and fails on
        a complete record that is damaged or that the caller rejects. */
    method Recover(replay: (seq<Bytes>, Bytes) -> bool) returns (replayed: seq<Bytes>, error: Option<OpenError>)
      requires !failed
      modifies this
      ensures !failed
      ensures error.None? <==> Scan(sum, old(data)).Sound? && Replays(replay, Scan(sum, old(data)).payloads)
      ensures error.None? ==>
                var s := Scan(sum, old(data));
                Valid() && acknowledged == replayed == s.payloads && data == old(data)[..s.end]
      ensures error.Some? ==> data == old(data)
      ensures match error
              case Some(InvalidLength(at)) => Scan(sum, data) == Corrupt(at, BadLength)
              case Some(ChecksumMismatch(at)) => Scan(sum, data) == Corrupt(at, BadChecksum)
              case _ => true
    {
      var offset := 0;
      replayed := [];
      NothingYet(sum, data);
      while true
        invariant 0 <= offset <= |data| && data == old(data) && !failed
        invariant StandsAt(sum, data, replayed, offset)
        invariant Replays(replay, replayed)
        decreases |data| - offset
      {
        var read := ReadRecord(data[offset..]);
        match read {
          case Ended => break;
          case CutShort =>
            data := data[..offset];
            break;
          case Bad(BadLength) => return replayed, Some(InvalidLength(offset));
          case Bad(BadChecksum) => return replayed, Some(ChecksumMismatch(offset));
          case Whole(payload) =>
            var next, more := offset + HEADER + |payload|, replayed + [payload];
            assert next <= |data| && StandsAt(sum, data, more, next) by {
              OneRecordOn(sum, data, replayed, offset, payload);
            }
            if !replay(replayed, payload) {
              RejectedStays(replayed, payload, replay, next, Scan(sum, data[next..]));
              return replayed, Some(ReplayRejected(offset));
            }
            ReplaysNext(replay, replayed, payload);
            offset, replayed := next, more;
        }
      }
      acknowledged := replayed;
      RecoveredExactly(sum, old(data), replayed, offset);
      error := None;
    }

    /** A failed append poisons the journal: what follows a partial record would be lost at recovery. */
    method Append(payload: Bytes, fault: WriteFault) returns (ok: bool)
      requires Valid()
      modifies this
      ensures Valid()
      ensures ok <==> !old(failed) && Recordable(payload) && fault == Written
      ensures ok ==> acknowledged == old(acknowledged) + [payload] && data == old(data) + Frame(sum, payload) && !failed
      ensures !ok ==> acknowledged == old(acknowledged)
      ensures !ok && (old(failed) || !Recordable(payload)) ==> data == old(data) && failed == old(failed)
      ensures !ok && !old(failed) && Recordable(payload) ==> failed && old(data) <= data <= old(data) + Frame(sum, payload)
    {
      if failed {
        return false;
      }
      if |payload| == 0 || |payload| > MAX_RECORD_BYTES {
        return false;
      }
      var record := BigEndian(|payload|) + BigEndian(sum(payload)) + payload;
      var n := if fault == Written || fault.landed > |record| then |record| else fault.landed;
      data := data + record[..n];
      if fault == Written {
        assert record[..n] == record;
        acknowledged := acknowledged + [payload];
        FramesAppend(sum, old(acknowledged), payload);
        return true;
      }
      failed := true;
      assert CutAt(payload, n);
      return false;
    }

    /** Installs a new file of the given records; a failure leaves the old file or the new one. */
    method Replace(payloads: seq<Bytes>, fault: bool, installed: bool) returns (ok: bool)
      requires Valid()
      modifies this
      ensures Valid()
      ensures ok <==> !old(failed) && AllRecordable(payloads) && !fault
      ensures failed == old(failed)
      ensures acknowledged == if !old(failed) && AllRecordable(payloads) && (!fault || installed) then payloads else old(acknowledged)
      ensures !old(failed) ==> data == Frames(sum, acknowledged)
      ensures old(failed) ==> data == old(data)
    {
      if failed {
        return false;
      }
      var file: Bytes, i := [], 0;
      while i < |payloads|
        invariant 0 <= i <= |payloads| && AllRecordable(payloads[..i]) && file == Frames(sum, payloads[..i])
        invariant Valid() && !failed && data == old(data) && acknowledged == old(acknowledged)
      {
        assert payloads[i] in payloads;
        if |payloads[i]| == 0 || |payloads[i]| > MAX_RECORD_BYTES {
          return false;
        }
        FramesAppend(sum, payloads[..i], payloads[i]);
        assert payloads[..i] + [payloads[i]] == payloads[..i + 1];
        file := file + (BigEndian(|payloads[i]|) + BigEndian(sum(payloads[i])) + payloads[i]);
        i := i + 1;
      }
      assert payloads[..i] == payloads;
      if fault && !installed {
        return false;
      }
      data, acknowledged := file, payloads;
      return !fault;
    }
  }

  /** The scan of `data` has found `ps` and stands at `offset`. */
  ghost predicate StandsAt(sum: Checksum, data: Bytes, ps: seq<Bytes>, offset: nat)
    requires offset <= |data|
  {
    Scan(sum, data) == After(ps, offset, Scan(sum, data[offset..]))
  }

  lemma NothingYet(sum: Checksum, data: Bytes)
    ensures StandsAt(sum, data, [], 0)
  {
    assert data[0..] == data;
    var s := Scan(sum, data);
    if s.Sound? {
      assert [] + s.payloads == s.payloads;
    }
  }

  lemma OneRecordOn(sum: Checksum, data: Bytes, ps: seq<Bytes>, offset: nat, p: Bytes)
    requires offset + HEADER + |p| <= |data|
    requires StandsAt(sum, data, ps, offset)
    requires Scan(sum, data[offset..]) == After([p], HEADER + |p|, Scan(sum, data[offset..][HEADER + |p|..]))
    ensures StandsAt(sum, data, ps + [p], offset + HEADER + |p|)
  {
    var used := HEADER + |p|;
    assert data[offset..][used..] == data[offset + used..];
    AfterAfter(ps, offset, p, used, Scan(sum, data[offset + used..]));
  }

  /** A scan that stands before a torn tail is complete. */
  lemma RecoveredExactly(sum: Checksum, data: Bytes, ps: seq<Bytes>, offset: nat)
    requires offset <= |data| && Torn(data[offset..]) && StandsAt(sum, data, ps, offset)
    ensures Scan(sum, data) == Sound(ps, offset) && AllRecordable(ps) && data[..offset] == Frames(sum, ps)
  {
    TornScansEmpty(sum, data[offset..]);
    assert ps + [] == ps;
    ScanIsExact(sum, data, ps, offset);
  }

  lemma ReplaysNext(replay: (seq<Bytes>, Bytes) -> bool, ps: seq<Bytes>, p: Bytes)
    requires Replays(replay, ps) && replay(ps, p)
    ensures Replays(replay, ps + [p])
  {
    forall i | 0 <= i < |ps + [p]| ensures replay((ps + [p])[..i], (ps + [p])[i]) {
      if i < |ps| {
        assert (ps + [p])[..i] == ps[..i] && (ps + [p])[i] == ps[i];
      } else {
        assert (ps + [p])[..i] == ps;
      }
    }
  }

  /** A record rejected by the replay is among the records of the whole scan, if that succeeds. */
  lemma RejectedStays(ps: seq<Bytes>, p: Bytes, replay: (seq<Bytes>, Bytes) -> bool, used: nat, more: Scanned)
    requires !replay(ps, p)
    ensures var s := After(ps + [p], used, more); s.Sound? ==> !Replays(replay, s.payloads)
  {
    if more.Sound? {
      var all := ps + [p] + more.payloads;
      assert all[..|ps|] == ps && all[|ps|] == p;
    }
  }

  // ---- Crash safety ----

  /** Whatever happened to a journal in use, a later recovery finds every acknowledged record, in order,
      and at most one more: the one whose append failed last, and only if all of it had landed. */
  lemma AcknowledgedSurvive(sum: Checksum, acknowledged: seq<Bytes>, p: Bytes, k: nat)
    requires AllRecordable(acknowledged) && Recordable(p) && k <= |Frame(sum, p)|
    ensures var file := Frames(sum, acknowledged) + Frame(sum, p)[..k];
            Scan(sum, file) == if k == |Frame(sum, p)| then Sound(acknowledged + [p], |file|)
                               else Sound(acknowledged, |Frames(sum, acknowledged)|)
  {
    var torn := Frame(sum, p)[..k];
    if k == |Frame(sum, p)| {
      FramesAppend(sum, acknowledged, p);
      var file := Frames(sum, acknowledged) + torn;
      assert torn == Frame(sum, p) && file[..|file|] == file && file[|file|..] == [];
      ScanIsExact(sum, file, acknowledged + [p], |file|);
    } else {
      PrefixIsTorn(sum, p, k);
      TornScansEmpty(sum, torn);
      ScanFrames(sum, acknowledged, torn);
      assert acknowledged + [] == acknowledged;
    }
  }
}
