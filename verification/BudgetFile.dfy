/** The append-only checkpoint log on disk (crates/budget/file/src/lib.rs). */
module BudgetFile {
  import opened ByteStrings
  import opened BudgetTypes
  import opened BudgetCheckpoint
  import opened BudgetChain

  const RECORD_VERSION := 1
  datatype Record = Record(version: nat, expectedRevision: u64, checkpoint: Checkpoint)

  // Compact JSON, of which only this is used: decoding undoes encoding, and a raw newline never occurs
  // (control characters are escaped inside strings, section 7 of RFC 8259).
  datatype Codec = Codec(encode: Record -> Bytes, decode: Bytes -> Option<Record>)

  ghost predicate CodecOk(codec: Codec) {
    forall r :: NEWLINE !in codec.encode(r) && codec.decode(codec.encode(r) + [NEWLINE]) == Some(r)
  }

  datatype Settings = Settings(codec: Codec, maxRecord: nat, maxLog: nat)

  datatype FileError =
    | Closed | Busy | Corrupt(record: nat) | LimitExceeded | Conflict(expected: u64, actual: u64) | Invalid
    | WrongBinding
    | NotCommitted | Indeterminate

  datatype Latest = Latest(image: Option<Checkpoint>) | Unreadable(error: FileError)
  datatype Outcome = Committed | ReplayedExact | Refused(error: FileError)

  function RevisionOf(k: Option<Checkpoint>): u64 {
    if k.None? then 0 else k.value.revision
  }

  // ---------------------------------------------------------------------
  // Reading the log.
  // ---------------------------------------------------------------------

  // The length of the first line, its newline included.
  function LineLength(bytes: Bytes): (n: nat)
    ensures n <= |bytes| && (bytes != [] ==> n > 0)
    ensures NEWLINE !in bytes[..if n > 0 then n - 1 else 0]
    ensures n < |bytes| ==> bytes[n - 1] == NEWLINE
  {
    if bytes == [] then 0
    else if bytes[0] == NEWLINE then 1
    else
      var n := 1 + LineLength(bytes[1..]);
      assert n == 1 || bytes[..n - 1] == [bytes[0]] + bytes[1..][..n - 2];
      n
  }

  datatype Line = Accepted(image: Checkpoint) | Rejected(error: FileError)

  // One line after the image latest; record counts from 1.
  ghost function ReadLine(s: Settings, line: Bytes, latest: Option<Checkpoint>, record: nat): Line
    requires line != []
  {
    if |line| > s.maxRecord then Rejected(LimitExceeded)
    else if line[|line| - 1] != NEWLINE then Rejected(Corrupt(record))
    else
      var entry := s.codec.decode(line);
      if entry.None? || entry.value.version != RECORD_VERSION || entry.value.expectedRevision != RevisionOf(latest)
         || !ValidTransition(latest, entry.value.checkpoint)
      then Rejected(Corrupt(record)) else Accepted(entry.value.checkpoint)
  }

  ghost function Replay(s: Settings, bytes: Bytes, latest: Option<Checkpoint>, record: nat): Latest
    decreases |bytes|
  {
    if bytes == [] then Latest(latest)
    else
      match ReadLine(s, bytes[..LineLength(bytes)], latest, record)
      case Rejected(e) => Unreadable(e)
      case Accepted(k) => Replay(s, bytes[LineLength(bytes)..], Some(k), record + 1)
  }

  ghost function ReadLog(s: Settings, bytes: Bytes, identity: Identity): Latest {
    if |bytes| > s.maxLog then Unreadable(LimitExceeded)
    else
      match Replay(s, bytes, None, 1)
      case Unreadable(e) => Unreadable(e)
      case Latest(k) => if k.Some? && k.value.report.identity != identity then Unreadable(WrongBinding) else Latest(k)
  }

  // ---------------------------------------------------------------------
  // Appending to it.
  // ---------------------------------------------------------------------

  // What the disk does with one call: whether the file can be locked and positioned, how many bytes of a
  // write reach it, and whether the flush afterwards succeeds.
  datatype Disk = Disk(locked: bool, positioned: bool, written: nat, synced: bool)

  function RecordLine(s: Settings, expected: u64, k: Checkpoint): Bytes {
    s.codec.encode(Record(RECORD_VERSION, expected, k)) + [NEWLINE]
  }

  ghost predicate Successor(k: Checkpoint, expected: u64) {
    WellFormed(k) && k.revision == expected + 1
  }

  datatype Call = Call(expected: u64, image: Checkpoint, disk: Disk)

  function CallLine(s: Settings, call: Call): Bytes {
    RecordLine(s, call.expected, call.image)
  }

  // How many bytes of its line a call appends to a log of a given size and last image, and its answer.
  datatype Effect = Effect(appended: nat, outcome: Outcome)

  ghost function Effects(s: Settings, latest: Option<Checkpoint>, size: nat, call: Call): (e: Effect)
    ensures e.appended <= |CallLine(s, call)|
  {
    var line := CallLine(s, call);
    if latest == Some(call.image) then Effect(0, if call.disk.synced then ReplayedExact else Refused(Indeterminate))
    else if RevisionOf(latest) != call.expected then Effect(0, Refused(Conflict(call.expected, RevisionOf(latest))))
    else if !ValidTransition(latest, call.image) then Effect(0, Refused(Invalid))
    else if |line| > s.maxRecord || size + |line| > s.maxLog then Effect(0, Refused(LimitExceeded))
    else if !call.disk.positioned then Effect(0, Refused(NotCommitted))
    else if call.disk.written < |line| then Effect(call.disk.written, Refused(Indeterminate))
    else Effect(|line|, if call.disk.synced then Committed else Refused(Indeterminate))
  }

  // The bytes after a compare-and-exchange, and its answer.
  ghost function Exchange(s: Settings, bytes: Bytes, call: Call): (Bytes, Outcome) {
    if !Successor(call.image, call.expected) then (bytes, Refused(Invalid))
    else if !call.disk.locked then (bytes, Refused(Busy))
    else
      match ReadLog(s, bytes, call.image.report.identity)
      case Unreadable(e) => (bytes, Refused(e))
      case Latest(latest) =>
        var e := Effects(s, latest, |bytes|, call);
        (bytes + CallLine(s, call)[..e.appended], e.outcome)
  }

  /** The store object: the file's bytes and the admission of its workers. */
  class CheckpointFile {
    const codec: Codec
    const maxRecord: nat
    const maxLog: nat
    const maxJobs: nat
    var bytes: Bytes
    var accepting: bool
    var inFlight: nat

    function Config(): Settings {
      Settings(codec, maxRecord, maxLog)
    }

    predicate Ok()
      reads this
    {
      inFlight <= maxJobs && 0 < maxRecord <= maxLog
    }

    constructor (codec: Codec, maxRecord: nat, maxLog: nat, maxJobs: nat, bytes: Bytes)
      requires 0 < maxRecord <= maxLog && 0 < maxJobs
      ensures Ok() && accepting && inFlight == 0 && this.bytes == bytes
      ensures Config() == Settings(codec, maxRecord, maxLog)
      ensures this.maxJobs == maxJobs
    {
      this.codec, this.maxRecord, this.maxLog, this.maxJobs := codec, maxRecord, maxLog, maxJobs;
      this.bytes, accepting, inFlight := bytes, true, 0;
    }

    /** Admits a worker unless the store is closed or full. */
    method Admit() returns (error: Option<FileError>)
      requires Ok()
      modifies this`inFlight
      ensures Ok()
      ensures error == if !accepting then Some(Closed) else if old(inFlight) == maxJobs then Some(Busy) else None
      ensures inFlight == old(inFlight) + if error.None? then 1 else 0
    {
      if !accepting {
        return Some(Closed);
      }
      if inFlight >= maxJobs {
        return Some(Busy);
      }
      inFlight := inFlight + 1;
      return None;
    }

    // A worker ended; says whether the store is drained.
    method Release() returns (drained: bool)
      requires Ok() && inFlight > 0
      modifies this`inFlight
      ensures Ok() && inFlight == old(inFlight) - 1 && (drained <==> inFlight == 0)
    {
      inFlight := inFlight - 1;
      drained := inFlight == 0;
    }

    // Stops admission; says whether there is nothing left to wait for.
    method Close() returns (drained: bool)
      requires Ok()
      modifies this`accepting
      ensures Ok() && !accepting && (drained <==> inFlight == 0)
    {
      accepting := false;
      drained := inFlight == 0;
    }

    method FirstLine(start: nat) returns (n: nat)
      requires start <= |bytes|
      ensures n == LineLength(bytes[start..])
    {
      n := 0;
      while start + n < |bytes| && (n == 0 || bytes[start + n - 1] != NEWLINE)
        invariant start + n <= |bytes|
        invariant LineLength(bytes[start..]) == if n > 0 && bytes[start + n - 1] == NEWLINE then n
            else n + LineLength(bytes[start + n..])
        decreases |bytes| - n
      {
        assert bytes[start + n..][1..] == bytes[start + n + 1..];
        n := n + 1;
      }
    }

    method CheckLine(line: Bytes, latest: Option<Checkpoint>, record: nat) returns (r: Line)
      requires line != []
      ensures r == ReadLine(Config(), line, latest, record)
    {
      hide WellFormed;
      if |line| > maxRecord {
        return Rejected(LimitExceeded);
      }
      if line[|line| - 1] != NEWLINE {
        return Rejected(Corrupt(record));
      }
      var entry := codec.decode(line);
      if entry.None? || entry.value.version != RECORD_VERSION {
        return Rejected(Corrupt(record));
      }
      var k := entry.value.checkpoint;
      if entry.value.expectedRevision != RevisionOf(latest)
          || (latest.Some? && latest.value.report.identity != k.report.identity) {
        return Rejected(Corrupt(record));
      }
      var ok := CheckTransition(latest, k);
      return if ok then Accepted(k) else Rejected(Corrupt(record));
    }

    method ReadLatest(identity: Identity) returns (r: Latest)
      ensures r == ReadLog(Config(), bytes, identity)
    {
      hide ReadLine, LineLength;
      if |bytes| > maxLog {
        return Unreadable(LimitExceeded);
      }
      var latest: Option<Checkpoint>, start, record := None, 0, 1;
      assert bytes[0..] == bytes;
      while start < |bytes|
        invariant start <= |bytes|
        invariant Replay(Config(), bytes, None, 1) == Replay(Config(), bytes[start..], latest, record)
      {
        var n := FirstLine(start);
        assert bytes[start..][..n] == bytes[start..start + n] && bytes[start..][n..] == bytes[start + n..];
        var line := CheckLine(bytes[start..start + n], latest, record);
        if line.Rejected? {
          return Unreadable(line.error);
        }
        latest, start, record := Some(line.image), start + n, record + 1;
      }
      if latest.Some? && latest.value.report.identity != identity {
        return Unreadable(WrongBinding);
      }
      return Latest(latest);
    }

    method CompareExchange(expected: u64, k: Checkpoint, disk: Disk) returns (r: Outcome)
      modifies this`bytes
      ensures (bytes, r) == Exchange(Config(), old(bytes), Call(expected, k, disk))
    {
      hide WellFormed, ReadLog, ValidTransition;
      ghost var call := Call(expected, k, disk);
      assert bytes + CallLine(Config(), call)[..0] == bytes;
      var valid := Validate(k);
      if !valid || k.revision != expected + 1 {
        return Refused(Invalid);
      }
      if !disk.locked {
        return Refused(Busy);
      }
      var latest := ReadLatest(k.report.identity);
      if latest.Unreadable? {
        return Refused(latest.error);
      }
      if latest.image == Some(k) {
        return if disk.synced then ReplayedExact else Refused(Indeterminate);
      }
      if RevisionOf(latest.image) != expected {
        return Refused(Conflict(expected, RevisionOf(latest.image)));
      }
      valid := CheckTransition(latest.image, k);
      if !valid {
        return Refused(Invalid);
      }
      var encoded := codec.encode(Record(RECORD_VERSION, expected, k)) + [NEWLINE];
      if |encoded| > maxRecord || |bytes| + |encoded| > maxLog {
        return Refused(LimitExceeded);
      }
      if !disk.positioned {
        return Refused(NotCommitted);
      }
      assert encoded[..|encoded|] == encoded;
      bytes := bytes + if disk.written < |encoded| then encoded[..disk.written] else encoded;
      return if disk.written >= |encoded| && disk.synced then Committed else Refused(Indeterminate);
    }
  }

  // ---------------------------------------------------------------------
  // The chain the bytes stand for.
  // ---------------------------------------------------------------------

  function Last(chain: seq<Checkpoint>): Option<Checkpoint> {
    if chain == [] then None else Some(chain[|chain| - 1])
  }

  function Encoded(s: Settings, chain: seq<Checkpoint>): Bytes {
    if chain == [] then []
    else Encoded(s, chain[..|chain| - 1]) + RecordLine(s, RevisionOf(Last(chain[..|chain| - 1])), chain[|chain| - 1])
  }

  // Images each of which may be stored after the one before it, in lines of admissible length.
  ghost predicate StoredChain(s: Settings, chain: seq<Checkpoint>) {
    chain == [] ||
      (var before, k := chain[..|chain| - 1], chain[|chain| - 1];
       StoredChain(s, before) && ValidTransition(Last(before), k)
       && |RecordLine(s, RevisionOf(Last(before)), k)| <= s.maxRecord)
  }

  // An interrupted line: never complete, and shorter than the limit.
  predicate Torn(s: Settings, tail: Bytes) {
    NEWLINE !in tail && |tail| <= s.maxRecord
  }

  ghost predicate LogOk(s: Settings, bytes: Bytes, chain: seq<Checkpoint>, tail: Bytes) {
    bytes == Encoded(s, chain) + tail && StoredChain(s, chain) && Torn(s, tail) && |bytes| <= s.maxLog
  }

  // ----- lines -----

  lemma {:induction false} LineEnds(line: Bytes, rest: Bytes)
    requires NEWLINE !in line
    ensures LineLength(line + [NEWLINE] + rest) == |line| + 1
  {
    var all := line + [NEWLINE] + rest;
    if line != [] {
      LineEnds(line[1..], rest);
      assert all[1..] == line[1..] + [NEWLINE] + rest;
    }
  }

  lemma {:induction false} NoLineEnd(bytes: Bytes)
    requires NEWLINE !in bytes
    ensures LineLength(bytes) == |bytes|
  {
    if bytes != [] {
      NoLineEnd(bytes[1..]);
    }
  }

  lemma ReadOwnLine(s: Settings, latest: Option<Checkpoint>, k: Checkpoint, rest: Bytes, record: nat)
    requires CodecOk(s.codec) && ValidTransition(latest, k) && |RecordLine(s, RevisionOf(latest), k)| <= s.maxRecord
    ensures Replay(s, RecordLine(s, RevisionOf(latest), k) + rest, latest, record)
        == Replay(s, rest, Some(k), record + 1)
  {
    hide ValidTransition;
    var line := RecordLine(s, RevisionOf(latest), k);
    var all := line + rest;
    LineEnds(s.codec.encode(Record(RECORD_VERSION, RevisionOf(latest), k)), rest);
    assert LineLength(all) == |line| && all[..|line|] == line && all[|line|..] == rest;
    assert ReadLine(s, line, latest, record) == Accepted(k);
  }

  /** Replaying the bytes of a stored chain rebuilds its last image and goes on behind it. */
  lemma {:induction false} ReplayChain(s: Settings, chain: seq<Checkpoint>, rest: Bytes)
    requires CodecOk(s.codec) && StoredChain(s, chain)
    ensures Replay(s, Encoded(s, chain) + rest, None, 1) == Replay(s, rest, Last(chain), |chain| + 1)
    decreases |chain|
  {
    if chain == [] {
      assert Encoded(s, chain) + rest == rest;
    } else {
      var before, k := chain[..|chain| - 1], chain[|chain| - 1];
      var line := RecordLine(s, RevisionOf(Last(before)), k);
      hide ReadLine, ValidTransition;
      assert Encoded(s, chain) + rest == Encoded(s, before) + (line + rest);
      ReplayChain(s, before, line + rest);
      ReadOwnLine(s, Last(before), k, rest, |before| + 1);
    }
  }

  /** Reading a log gives exactly the last image of its chain, or reports the torn line behind it. */
  lemma ReadsChain(s: Settings, bytes: Bytes, chain: seq<Checkpoint>, tail: Bytes, identity: Identity)
    requires CodecOk(s.codec) && LogOk(s, bytes, chain, tail)
    ensures ReadLog(s, bytes, identity) ==
      if tail != [] then Unreadable(Corrupt(|chain| + 1))
      else if chain != [] && Last(chain).value.report.identity != identity then Unreadable(WrongBinding)
      else Latest(Last(chain))
  {
    ReplayChain(s, chain, tail);
    if tail != [] {
      NoLineEnd(tail);
      assert tail[..|tail|] == tail && tail[|tail| - 1] in tail;
    }
    hide StoredChain, CodecOk, Encoded;
  }

  // ---------------------------------------------------------------------
  // The log refines the abstract cell.
  // ---------------------------------------------------------------------

  // What a call means for the chain; the tail is what an interrupted write left.
  ghost function AbstractExchange(s: Settings, chain: seq<Checkpoint>, tail: Bytes, call: Call)
    : (seq<Checkpoint>, Bytes, Outcome)
  {
    if !Successor(call.image, call.expected) then (chain, tail, Refused(Invalid))
    else if !call.disk.locked then (chain, tail, Refused(Busy))
    else if tail != [] then (chain, tail, Refused(Corrupt(|chain| + 1)))
    else if chain != [] && Last(chain).value.report.identity != call.image.report.identity
    then (chain, tail, Refused(WrongBinding))
    else
      var e := Effects(s, Last(chain), |Encoded(s, chain)|, call);
      if e.appended == |CallLine(s, call)| then (chain + [call.image], [], e.outcome)
      else (chain, CallLine(s, call)[..e.appended], e.outcome)
  }

  lemma AppendedLog(s: Settings, bytes: Bytes, chain: seq<Checkpoint>, k: Checkpoint)
    requires LogOk(s, bytes, chain, []) && ValidTransition(Last(chain), k)
    requires var n := |RecordLine(s, RevisionOf(Last(chain)), k)|; n <= s.maxRecord && |bytes| + n <= s.maxLog
    ensures LogOk(s, bytes + RecordLine(s, RevisionOf(Last(chain)), k), chain + [k], [])
  {
    hide ValidTransition;
    assert (chain + [k])[..|chain|] == chain;
  }

  lemma InterruptedLog(s: Settings, bytes: Bytes, chain: seq<Checkpoint>, line: Bytes, n: nat)
    requires LogOk(s, bytes, chain, []) && n < |line| && NEWLINE !in line[..|line| - 1]
    requires n > 0 ==> |line| <= s.maxRecord && |bytes| + |line| <= s.maxLog
    ensures LogOk(s, bytes + line[..n], chain, line[..n])
  {
    hide StoredChain, Encoded;
    assert forall x | x in line[..n] :: x in line[..|line| - 1];
  }

  lemma EffectFacts(s: Settings, latest: Option<Checkpoint>, size: nat, call: Call)
    ensures var e := Effects(s, latest, size, call);
      && (e.appended > 0 ==> |CallLine(s, call)| <= s.maxRecord && size + |CallLine(s, call)| <= s.maxLog)
      && (e.appended > 0 ==> ValidTransition(latest, call.image) && call.expected == RevisionOf(latest))
      && |CallLine(s, call)| > 0
  {
    hide ValidTransition;
  }

  // A clean log stays well formed however much of the call's line reaches it.
  lemma CleanExchange(s: Settings, bytes: Bytes, chain: seq<Checkpoint>, call: Call)
    requires CodecOk(s.codec) && LogOk(s, bytes, chain, [])
    ensures var line, n := CallLine(s, call), Effects(s, Last(chain), |bytes|, call).appended;
      if n == |line| then LogOk(s, bytes + line[..n], chain + [call.image], [])
      else LogOk(s, bytes + line[..n], chain, line[..n])
  {
    var line, n := CallLine(s, call), Effects(s, Last(chain), |bytes|, call).appended;
    assert NEWLINE !in line[..|line| - 1] && line[..|line|] == line;
    EffectFacts(s, Last(chain), |bytes|, call);
    OwnLine(s, call);
    hide *;
    if n == |line| {
      AppendedLog(s, bytes, chain, call.image);
    } else {
      InterruptedLog(s, bytes, chain, line, n);
    }
  }

  /** One call on the bytes is one abstract step on the chain, wherever the write is interrupted. */
  lemma ExchangeRefines(s: Settings, bytes: Bytes, chain: seq<Checkpoint>, tail: Bytes, call: Call)
    requires CodecOk(s.codec) && LogOk(s, bytes, chain, tail)
    ensures var (bytes', r) := Exchange(s, bytes, call);
      var (chain', tail', q) := AbstractExchange(s, chain, tail, call);
      r == q && LogOk(s, bytes', chain', tail')
  {
    hide LogOk, CodecOk, ReadLog, Successor, CallLine, Effects;
    ReadsChain(s, bytes, chain, tail, call.image.report.identity);
    if tail == [] {
      CleanLog(s, bytes, chain);
      CleanExchange(s, bytes, chain, call);
    }
  }

  lemma CleanLog(s: Settings, bytes: Bytes, chain: seq<Checkpoint>)
    requires LogOk(s, bytes, chain, [])
    ensures bytes == Encoded(s, chain)
  {
    assert Encoded(s, chain) + [] == Encoded(s, chain);
  }

  lemma OwnLine(s: Settings, call: Call)
    ensures CallLine(s, call) == RecordLine(s, call.expected, call.image)
  {
  }

  ghost function AfterCalls(s: Settings, bytes: Bytes, calls: seq<Call>): Bytes
    decreases |calls|
  {
    if calls == [] then bytes else AfterCalls(s, Exchange(s, bytes, calls[0]).0, calls[1..])
  }

  ghost function AbstractCalls(s: Settings, chain: seq<Checkpoint>, tail: Bytes, calls: seq<Call>)
    : (seq<Checkpoint>, Bytes)
    decreases |calls|
  {
    if calls == [] then (chain, tail)
    else
      var (chain', tail', _) := AbstractExchange(s, chain, tail, calls[0]);
      AbstractCalls(s, chain', tail', calls[1..])
  }

  lemma {:induction false} CallsRefine(s: Settings, bytes: Bytes, chain: seq<Checkpoint>, tail: Bytes, calls: seq<Call>)
    requires CodecOk(s.codec) && LogOk(s, bytes, chain, tail)
    ensures var (chain', tail') := AbstractCalls(s, chain, tail, calls);
      LogOk(s, AfterCalls(s, bytes, calls), chain', tail')
    decreases |calls|
  {
    hide AbstractExchange, Exchange, LogOk, CodecOk;
    if calls != [] {
      ExchangeRefines(s, bytes, chain, tail, calls[0]);
      var (chain', tail', _) := AbstractExchange(s, chain, tail, calls[0]);
      CallsRefine(s, Exchange(s, bytes, calls[0]).0, chain', tail', calls[1..]);
    }
  }

  /** After any calls on an empty file, each cut short anywhere, reading gives exactly the abstract chain's last image,
      or reports a torn line; nothing else can be read. */
  lemma CrashSafety(s: Settings, calls: seq<Call>, identity: Identity)
    requires CodecOk(s.codec)
    ensures var (chain, tail) := AbstractCalls(s, [], [], calls);
      && StoredChain(s, chain)
      && ReadLog(s, AfterCalls(s, [], calls), identity) ==
           if tail != [] then Unreadable(Corrupt(|chain| + 1))
           else if chain != [] && Last(chain).value.report.identity != identity then Unreadable(WrongBinding)
           else Latest(Last(chain))
  {
    hide ReadLog, AbstractCalls, AfterCalls, CodecOk;
    CallsRefine(s, [], [], [], calls);
    var (chain, tail) := AbstractCalls(s, [], [], calls);
    ReadsChain(s, AfterCalls(s, [], calls), chain, tail, identity);
  }

  // ----- what the abstract step guarantees -----

  /** A torn line is never appended to and never repaired. */
  lemma {:induction false} TornForever(s: Settings, chain: seq<Checkpoint>, tail: Bytes, calls: seq<Call>)
    requires tail != []
    ensures AbstractCalls(s, chain, tail, calls) == (chain, tail)
    decreases |calls|
  {
    hide Successor;
    if calls != [] {
      TornForever(s, chain, tail, calls[1..]);
    }
  }

  // ----- an image is stored once -----

  lemma NextRevision(previous: Option<Checkpoint>, k: Checkpoint)
    requires ValidTransition(previous, k)
    ensures k.revision == RevisionOf(previous) + 1
  {
    hide WellFormed, GrantStep, RecoveryStep;
  }

  lemma {:induction false} StoredRevisions(s: Settings, chain: seq<Checkpoint>, i: nat)
    requires StoredChain(s, chain) && i < |chain|
    ensures chain[i].revision == i + 1
    decreases |chain|
  {
    hide ValidTransition, RecordLine;
    var before := chain[..|chain| - 1];
    if i < |before| {
      StoredRevisions(s, before, i);
    } else {
      NextRevision(Last(before), chain[i]);
      if before != [] {
        StoredRevisions(s, before, |before| - 1);
      }
    }
  }

  // A step keeps the chain or stores the call's image at its end.
  lemma StepStored(s: Settings, chain: seq<Checkpoint>, tail: Bytes, call: Call)
    requires StoredChain(s, chain)
    ensures var next := AbstractExchange(s, chain, tail, call).0;
      chain <= next <= chain + [call.image] && StoredChain(s, next)
  {
    hide ValidTransition, Successor, Encoded, RecordLine, WellFormed;
    assert (chain + [call.image])[..|chain|] == chain;
    EffectFacts(s, Last(chain), |Encoded(s, chain)|, call);
  }

  lemma {:induction false} CallsStored(s: Settings, chain: seq<Checkpoint>, tail: Bytes, calls: seq<Call>)
    requires StoredChain(s, chain)
    ensures chain <= AbstractCalls(s, chain, tail, calls).0 && StoredChain(s, AbstractCalls(s, chain, tail, calls).0)
    decreases |calls|
  {
    hide AbstractExchange, StoredChain;
    if calls != [] {
      StepStored(s, chain, tail, calls[0]);
      var (next, rest, _) := AbstractExchange(s, chain, tail, calls[0]);
      CallsStored(s, next, rest, calls[1..]);
    }
  }

  // An image already in the chain is not stored again.
  lemma StoredNotAgain(s: Settings, chain: seq<Checkpoint>, tail: Bytes, call: Call)
    requires StoredChain(s, chain) && call.image in chain
    ensures var (next, rest, r) := AbstractExchange(s, chain, tail, call);
      next == chain && !r.Committed? && (r.ReplayedExact? ==> Last(chain) == Some(call.image))
  {
    var i :| 0 <= i < |chain| && chain[i] == call.image;
    StoredRevisions(s, chain, i);
    StoredRevisions(s, chain, |chain| - 1);
    StoresSuccessor(s, chain, tail, call);
    SuccessorRevision(s, chain, tail, call);
    hide *;
  }

  lemma SuccessorRevision(s: Settings, chain: seq<Checkpoint>, tail: Bytes, call: Call)
    ensures AbstractExchange(s, chain, tail, call).0 != chain ==> call.image.revision == RevisionOf(Last(chain)) + 1
  {
    StoresSuccessor(s, chain, tail, call);
    hide AbstractExchange, ValidTransition, WellFormed;
    if ValidTransition(Last(chain), call.image) {
      NextRevision(Last(chain), call.image);
    }
  }

  /** Retrying the exact image of any earlier call, however that call ended and whatever calls came in between, never
      stores the image twice: if it is in the chain the chain stays, and no image is ever in the chain at two places. */
  lemma RetryNeverDuplicates(s: Settings, chain: seq<Checkpoint>, tail: Bytes, call: Call, between: seq<Call>,
                             again: Disk)
    requires StoredChain(s, chain)
    ensures var (first, torn, _) := AbstractExchange(s, chain, tail, call);
      var (later, rest) := AbstractCalls(s, first, torn, between);
      var (last, _, r) := AbstractExchange(s, later, rest, Call(call.expected, call.image, again));
      && chain <= first <= later <= last <= later + [call.image]
      && (call.image in later ==> last == later && !r.Committed?)
      && (forall i, j | 0 <= i < j < |last| :: last[i] != last[j])
  {
    hide AbstractExchange, AbstractCalls, StoredChain;
    StepStored(s, chain, tail, call);
    var (first, torn, _) := AbstractExchange(s, chain, tail, call);
    CallsStored(s, first, torn, between);
    var (later, rest) := AbstractCalls(s, first, torn, between);
    var retry := Call(call.expected, call.image, again);
    StepStored(s, later, rest, retry);
    var last := AbstractExchange(s, later, rest, retry).0;
    forall i, j | 0 <= i < j < |last| ensures last[i] != last[j] {
      StoredRevisions(s, last, i);
      StoredRevisions(s, last, j);
    }
    if call.image in later {
      StoredNotAgain(s, later, rest, retry);
    }
  }

  /** Retried at once, the exact image of an interrupted call is replayed if it got through, written once if nothing
      did, and refused as corrupt in between. */
  lemma RetryAtOnce(s: Settings, chain: seq<Checkpoint>, call: Call, again: Disk)
    requires StoredChain(s, chain) && AbstractExchange(s, chain, [], call).2 == Refused(Indeterminate) && again.locked
    ensures var (chain', tail', _) := AbstractExchange(s, chain, [], call);
      var (chain'', tail'', r) := AbstractExchange(s, chain', tail', Call(call.expected, call.image, again));
      && (tail' == [] && chain' != chain ==> chain'' == chain' && tail'' == [] && (again.synced ==> r == ReplayedExact))
      && (tail' != [] ==> chain' == chain && (chain'', tail'') == (chain', tail') && r == Refused(Corrupt(|chain| + 1)))
      && (tail' == [] && chain' == chain ==> chain'' == chain || chain'' == chain + [call.image])
  {
    hide ValidTransition, Successor, StoredChain, Encoded;
  }

  /** An image enters the chain only over its direct predecessor: the file is the compare-and-swap cell of the
      protocol. */
  lemma StoresSuccessor(s: Settings, chain: seq<Checkpoint>, tail: Bytes, call: Call)
    ensures var (chain', _, r) := AbstractExchange(s, chain, tail, call);
      && (chain' == chain || (chain' == chain + [call.image] && RevisionOf(Last(chain)) == call.expected
          && ValidTransition(Last(chain), call.image)))
      && (r.Committed? ==> chain' == chain + [call.image])
      && (r.ReplayedExact? ==> chain' == chain && Last(chain) == Some(call.image))
  {
    hide ValidTransition, Successor, Encoded;
  }
}
