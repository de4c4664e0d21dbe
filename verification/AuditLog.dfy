/**
 The bounded, append-only audit log (internal/approval/audit.go).

 The JSON encoding is a parameter: any codec that is lossless, keeps newlines out of its
 records and never decodes a proper prefix of a record.
 */
module AuditLog {
  import opened Common

  newtype Byte = x: int | 0 <= x < 256

  type Bytes = seq<Byte>

  const NEWLINE: Byte := 10

  const MAX_TERMINAL_RESULT_BYTES: nat := 0x40_0000
  const MAX_AUDIT_RECORD_BYTES: nat := 0x48_0000
  const MAX_AUDIT_LOG_BYTES: nat := 0x400_0000
  const MAX_AUDIT_REPLAY_ENTRIES: nat := 10_000

  type Time = nat

  datatype Status = Pending | Approved | Denied | Executed | Failed

  /** Other is any event name the log may carry that this program does not write. */
  datatype Event = Enqueue | Approve | Deny | Execute | Fail | Other(name: string)

  datatype TerminalOutcome = TerminalOutcome(
    status: Status,
    result: Bytes,
    reason: string,
    err: string,
    decidedAt: Option<Time>,
    executedAt: Option<Time>)

  datatype AuditEntry = AuditEntry(
    time: Time,
    event: Event,
    id: string,
    caller: string,
    callId: string,
    tool: string,
    reason: string,
    params: Bytes,
    paramsHash: string,
    outcome: Option<TerminalOutcome>)

  datatype Codec = Codec(encode: AuditEntry -> Bytes, decode: Bytes -> Option<AuditEntry>)

  ghost predicate Lawful(c: Codec) {
    && (forall e :: NEWLINE !in c.encode(e) && c.encode(e) != [])
    && (forall e :: c.decode(c.encode(e)) == Some(e))
    && (forall e, k :: 0 <= k < |c.encode(e)| ==> c.decode(c.encode(e)[..k]) == None)
  }

  // ----- capacity -----

  datatype AppendError = RecordTooLarge | Closed | AlreadyReserved | TooManyEntries | LogFull

  /** Sizes only: bytes in the log, records in it, and the ids holding a reservation of one full record. */
  datatype Ledger = Ledger(size: nat, count: nat, reserved: set<string>)

  predicate FreesReservation(l: Ledger, event: Event, id: string) {
    (event.Execute? || event.Fail?) && id in l.reserved
  }

  /** The ids whose reservations stay set aside while this record is written. */
  function Others(l: Ledger, event: Event, id: string): set<string> {
    if FreesReservation(l, event, id) then l.reserved - {id} else l.reserved
  }

  function BytesNeeded(event: Event, record: nat): nat {
    record + 1 + if event.Approve? then MAX_AUDIT_RECORD_BYTES else 0
  }

  function EntriesNeeded(event: Event): nat {
    if event.Approve? then 2 else 1
  }

  /** What Append does to the sizes, for a record of the given length without its newline. */
  function Admit(l: Ledger, event: Event, id: string, record: nat): Result<Ledger, AppendError> {
    var others := Others(l, event, id);
    if record > MAX_AUDIT_RECORD_BYTES then Err(RecordTooLarge)
    else if event.Approve? && id in l.reserved then Err(AlreadyReserved)
    else if l.count + |others| + EntriesNeeded(event) > MAX_AUDIT_REPLAY_ENTRIES then Err(TooManyEntries)
    else if l.size + |others| * MAX_AUDIT_RECORD_BYTES + BytesNeeded(event, record) > MAX_AUDIT_LOG_BYTES then Err(LogFull)
    else Ok(Ledger(l.size + record + 1, l.count + 1, if event.Approve? then l.reserved + {id} else others))
  }

  /** Every reservation can still be honoured. */
  predicate Backed(l: Ledger) {
    && l.size + |l.reserved| * MAX_AUDIT_RECORD_BYTES <= MAX_AUDIT_LOG_BYTES
    && l.count + |l.reserved| <= MAX_AUDIT_REPLAY_ENTRIES
  }

  /** The ids with a reservation after the record: an approval takes one, and its outcome gives it back. */
  function KeptIds(reserved: set<string>, event: Event, id: string): set<string> {
    match event
    case Approve => reserved + {id}
    case Execute | Fail => reserved - {id}
    case _ => reserved
  }

  lemma AdmitsWhen(l: Ledger, event: Event, id: string, record: nat)
    ensures var kept := KeptIds(l.reserved, event, id);
      && (Admit(l, event, id, record).Ok? <==>
          && record <= 0x48_0000 && !(event.Approve? && id in l.reserved)
          && l.count + 1 + |kept| <= 10_000 && l.size + record + 1 + |kept| * 0x48_0000 <= 0x400_0000)
      && (Admit(l, event, id, record).Ok? ==> Admit(l, event, id, record).value == Ledger(l.size + record + 1, l.count + 1, kept))
  {
    AdmittedIffBacked(l, event, id, record);
    assert id !in l.reserved ==> l.reserved - {id} == l.reserved;
  }

  /** The ledger with one more record in it. */
  function Taken(l: Ledger, event: Event, id: string, record: nat): Ledger {
    Ledger(l.size + record + 1, l.count + 1, if event.Approve? then l.reserved + {id} else Others(l, event, id))
  }

  /** A record is accepted exactly when it is not too large, reserves nothing twice, and leaves every reservation backed. */
  lemma AdmittedIffBacked(l: Ledger, event: Event, id: string, record: nat)
    ensures Admit(l, event, id, record).Ok? <==>
            record <= MAX_AUDIT_RECORD_BYTES && !(event.Approve? && id in l.reserved) && Backed(Taken(l, event, id, record))
    ensures Admit(l, event, id, record).Ok? ==> Admit(l, event, id, record).value == Taken(l, event, id, record)
  {
    if event.Approve? && id !in l.reserved {
      assert |l.reserved + {id}| == |l.reserved| + 1;
    }
  }

  lemma AdmitKeepsBacked(l: Ledger, event: Event, id: string, record: nat)
    requires Backed(l) && Admit(l, event, id, record).Ok?
    ensures Backed(Admit(l, event, id, record).value)
  {
    AdmittedIffBacked(l, event, id, record);
  }

  /** The outcome of a reserved id is refused only when its line is one byte longer than the reservation and the log is full. */
  lemma TerminalAdmitted(l: Ledger, event: Event, id: string, record: nat)
    requires Backed(l) && FreesReservation(l, event, id) && record <= MAX_AUDIT_RECORD_BYTES
    ensures Admit(l, event, id, record).Ok? <==>
            l.size + |l.reserved| * MAX_AUDIT_RECORD_BYTES + (record + 1 - MAX_AUDIT_RECORD_BYTES) <= MAX_AUDIT_LOG_BYTES
    ensures record < MAX_AUDIT_RECORD_BYTES ==> Admit(l, event, id, record).Ok?
  {
    assert |l.reserved - {id}| == |l.reserved| - 1;
  }

  datatype Request = Request(event: Event, id: string, record: nat)

  /** The ledger after a sequence of appends, refused ones leaving it as it is. */
  function AfterAll(l: Ledger, attempts: seq<Request>): Ledger {
    if attempts == [] then l
    else
      var before, a := AfterAll(l, attempts[..|attempts| - 1]), attempts[|attempts| - 1];
      var r := Admit(before, a.event, a.id, a.record);
      if r.Ok? then r.value else before
  }

  const EMPTY_LOG := Ledger(0, 0, {})

  lemma {:induction false} ReachableIsBacked(attempts: seq<Request>)
    ensures Backed(AfterAll(EMPTY_LOG, attempts))
  {
    if attempts != [] {
      var front, a := attempts[..|attempts| - 1], attempts[|attempts| - 1];
      ReachableIsBacked(front);
      if Admit(AfterAll(EMPTY_LOG, front), a.event, a.id, a.record).Ok? {
        AdmitKeepsBacked(AfterAll(EMPTY_LOG, front), a.event, a.id, a.record);
      }
    }
  }

  /** After these appends to a new log the id has no reservation, or an outcome record of this length is accepted. */
  predicate Honoured(attempts: seq<Request>, event: Event, id: string, record: nat) {
    var l := AfterAll(EMPTY_LOG, attempts);
    id in l.reserved ==> Admit(l, event, id, record).Ok?
  }

  /**
   A reservation covers a record in every log that appends can build exactly when the record with its newline fits
   into MaxAuditRecordBytes. A record of exactly that length is accepted by itself, but its line is not covered.
   */
  lemma ReservationCovers(id: string, event: Event, record: nat)
    requires record <= MAX_AUDIT_RECORD_BYTES && (event.Execute? || event.Fail?)
    ensures (forall attempts :: Honoured(attempts, event, id, record)) <==> record < MAX_AUDIT_RECORD_BYTES
  {
    if record == MAX_AUDIT_RECORD_BYTES {
      FullLogRefuses(id, event);
    } else {
      forall attempts
        ensures Honoured(attempts, event, id, record)
      {
        ReachableIsBacked(attempts);
        if id in AfterAll(EMPTY_LOG, attempts).reserved {
          TerminalAdmitted(AfterAll(EMPTY_LOG, attempts), event, id, record);
        }
      }
    }
  }

  /** Enqueue records of the greatest length. */
  function Longest(n: nat): seq<Request> {
    if n == 0 then [] else Longest(n - 1) + [Request(Enqueue, "other", MAX_AUDIT_RECORD_BYTES)]
  }

  /** Thirteen of them, a shorter one, and the approval that reserves the rest of the log. */
  function FullLog(id: string): seq<Request> {
    Longest(13) + [Request(Enqueue, id, 1_048_361)] + [Request(Approve, id, 200)]
  }

  lemma AfterSnoc(l: Ledger, attempts: seq<Request>, a: Request)
    ensures AfterAll(l, attempts + [a]) ==
            (var before := AfterAll(l, attempts);
             var r := Admit(before, a.event, a.id, a.record); if r.Ok? then r.value else before)
  {
    assert (attempts + [a])[..|attempts|] == attempts;
    hide Admit;
  }

  lemma {:induction false} AfterLongest(n: nat)
    requires n <= 13
    ensures AfterAll(EMPTY_LOG, Longest(n)) == Ledger(n * (MAX_AUDIT_RECORD_BYTES + 1), n, {})
  {
    if n > 0 {
      AfterLongest(n - 1);
      AfterSnoc(EMPTY_LOG, Longest(n - 1), Request(Enqueue, "other", MAX_AUDIT_RECORD_BYTES));
    }
  }

  lemma AfterFullLog(id: string)
    ensures AfterAll(EMPTY_LOG, FullLog(id)) == Ledger(MAX_AUDIT_LOG_BYTES - MAX_AUDIT_RECORD_BYTES, 15, {id})
  {
    AfterLongest(13);
    hide AfterAll;
    AfterSnoc(EMPTY_LOG, Longest(13), Request(Enqueue, id, 1_048_361));
    AfterSnoc(EMPTY_LOG, Longest(13) + [Request(Enqueue, id, 1_048_361)], Request(Approve, id, 200));
    assert {} + {id} == {id};
  }

  /** In that log the reserved outcome of the greatest length is refused. */
  lemma FullLogRefuses(id: string, event: Event)
    requires event.Execute? || event.Fail?
    ensures id in AfterAll(EMPTY_LOG, FullLog(id)).reserved && !Honoured(FullLog(id), event, id, MAX_AUDIT_RECORD_BYTES)
  {
    AfterFullLog(id);
    hide AfterAll, FullLog;
    var l := AfterAll(EMPTY_LOG, FullLog(id));
    assert l.reserved == {id};
    TerminalAdmitted(l, event, id, MAX_AUDIT_RECORD_BYTES);
  }

  /** However other appends interleave, an approved id keeps its reservation, and its outcome is accepted. */
  lemma {:induction false} OutcomeSpaceIsReserved(l: Ledger, attempts: seq<Request>, id: string, event: Event, record: nat)
    requires Backed(l) && id in l.reserved && (event.Execute? || event.Fail?) && record < MAX_AUDIT_RECORD_BYTES
    requires forall i :: 0 <= i < |attempts| && attempts[i].id == id ==> !attempts[i].event.Execute? && !attempts[i].event.Fail?
    ensures Backed(AfterAll(l, attempts)) && id in AfterAll(l, attempts).reserved
    ensures Admit(AfterAll(l, attempts), event, id, record).Ok?
  {
    if attempts != [] {
      var front, a := attempts[..|attempts| - 1], attempts[|attempts| - 1];
      OutcomeSpaceIsReserved(l, front, id, event, record);
      var before := AfterAll(l, front);
      if Admit(before, a.event, a.id, a.record).Ok? {
        AdmitKeepsBacked(before, a.event, a.id, a.record);
      }
    }
    TerminalAdmitted(AfterAll(l, attempts), event, id, record);
  }

  // ----- the file -----

  /** The bytes one record takes in the file. */
  function Line(c: Codec, e: AuditEntry): Bytes {
    c.encode(e) + [NEWLINE]
  }

  predicate SmallOutcome(e: AuditEntry) {
    e.outcome.Some? ==> |e.outcome.value.result| <= MAX_TERMINAL_RESULT_BYTES
  }

  datatype ReadError = LogTooLarge | LineTooLarge | Malformed | ResultTooLarge | TooManyRecords

  /** Where the first newline stands, or the length of data. */
  function FirstNewline(data: Bytes): (r: nat)
    ensures r <= |data| && NEWLINE !in data[..r] && (r < |data| ==> data[r] == NEWLINE)
  {
    if data == [] || data[0] == NEWLINE then 0 else 1 + FirstNewline(data[1..])
  }

  function CheckRecord(c: Codec, line: Bytes, count: nat): Result<AuditEntry, ReadError> {
    var e := c.decode(line);
    if e.None? then Err(Malformed)
    else if !SmallOutcome(e.value) then Err(ResultTooLarge)
    else if count == MAX_AUDIT_REPLAY_ENTRIES then Err(TooManyRecords)
    else Ok(e.value)
  }

  /** The records of data, count of them having been read before. A torn last line ends the log quietly. */
  function ReadFrom(c: Codec, data: Bytes, count: nat): Result<seq<AuditEntry>, ReadError>
    decreases |data|
  {
    var n := FirstNewline(data);
    if data == [] then Ok([])
    else if n > MAX_AUDIT_RECORD_BYTES then Err(LineTooLarge)
    else if n == |data| then
      var r := CheckRecord(c, data, count);
      if r == Err(Malformed) then Ok([]) else if r.Err? then Err(r.error) else Ok([r.value])
    else if n == 0 then ReadFrom(c, data[1..], count)
    else
      var r := CheckRecord(c, data[..n], count);
      if r.Err? then Err(r.error)
      else
        var rest := ReadFrom(c, data[n + 1..], count + 1);
        if rest.Err? then rest else Ok([r.value] + rest.value)
  }

  function Read(c: Codec, file: Bytes): Result<seq<AuditEntry>, ReadError> {
    if |file| > MAX_AUDIT_LOG_BYTES then Err(LogTooLarge) else ReadFrom(c, file, 0)
  }

  function Prepend(entries: seq<AuditEntry>, r: Result<seq<AuditEntry>, ReadError>): Result<seq<AuditEntry>, ReadError> {
    if r.Err? then r else Ok(entries + r.value)
  }

  lemma PrependNothing(r: Result<seq<AuditEntry>, ReadError>)
    ensures Prepend([], r) == r
  {
    if r.Ok? {
      assert [] + r.value == r.value;
    }
  }

  method ReadAuditLog(c: Codec, file: Bytes) returns (r: Result<seq<AuditEntry>, ReadError>)
    ensures r == Read(c, file)
  {
    if |file| > MAX_AUDIT_LOG_BYTES {
      return Err(LogTooLarge);
    }
    var entries: seq<AuditEntry> := [];
    var rest := file;
    PrependNothing(ReadFrom(c, file, 0));
    while rest != []
      invariant Prepend(entries, ReadFrom(c, rest, |entries|)) == ReadFrom(c, file, 0)
      decreases |rest|
    {
      var n := FirstNewline(rest);
      if n > MAX_AUDIT_RECORD_BYTES {
        return Err(LineTooLarge);
      }
      var terminated := n < |rest|;
      var line := rest[..n];
      if line == [] {
        rest := rest[1..];
      } else {
        assert !terminated ==> line == rest;
        var record := CheckRecord(c, line, |entries|);
        if record.Err? {
          if !terminated && record.error.Malformed? {
            assert entries + [] == entries;
            return Ok(entries);
          }
          return Err(record.error);
        }
        ReadStep(c, rest, entries, record.value);
        entries := entries + [record.value];
        if !terminated {
          return Ok(entries);
        }
        rest := rest[n + 1..];
      }
    }
    assert entries + [] == entries;
    r := Ok(entries);
  }

  lemma ReadStep(c: Codec, rest: Bytes, entries: seq<AuditEntry>, e: AuditEntry)
    requires rest != [] && 0 < FirstNewline(rest) <= MAX_AUDIT_RECORD_BYTES
    requires CheckRecord(c, rest[..FirstNewline(rest)], |entries|) == Ok(e)
    ensures var n := FirstNewline(rest);
      if n == |rest| then Prepend(entries, ReadFrom(c, rest, |entries|)) == Ok(entries + [e])
      else Prepend(entries, ReadFrom(c, rest, |entries|)) ==
           Prepend(entries + [e], ReadFrom(c, rest[n + 1..], |entries + [e]|))
  {
    hide CheckRecord;
    var n := FirstNewline(rest);
    if n == |rest| {
      assert rest[..n] == rest;
    } else {
      var tail := ReadFrom(c, rest[n + 1..], |entries| + 1);
      if tail.Ok? {
        assert entries + ([e] + tail.value) == entries + [e] + tail.value;
      }
    }
  }

  // ----- torn tails -----

  /** No line is left open at the end. */
  predicate Terminated(data: Bytes) {
    data == [] || data[|data| - 1] == NEWLINE
  }

  lemma NoneIn(data: Bytes, lo: nat, hi: nat)
    requires lo <= hi <= |data| && NEWLINE !in data[lo..hi]
    ensures forall k :: lo <= k < hi ==> data[k] != NEWLINE
  {
    forall k | lo <= k < hi
      ensures data[k] != NEWLINE
    {
      assert data[lo..hi][k - lo] == data[k];
    }
  }

  lemma FirstNewlineAt(data: Bytes, n: nat)
    requires n <= |data| && NEWLINE !in data[..n] && (n < |data| ==> data[n] == NEWLINE)
    ensures FirstNewline(data) == n
  {
    NoneIn(data, 0, n);
    NoneIn(data, 0, FirstNewline(data));
  }

  lemma FirstNewlineIn(p: Bytes, t: Bytes)
    requires p != [] && Terminated(p)
    ensures FirstNewline(p) < |p| && FirstNewline(p + t) == FirstNewline(p)
    ensures Terminated(p[FirstNewline(p) + 1..])
  {
    var n := FirstNewline(p);
    NoneIn(p, 0, n);
    assert (p + t)[..n] == p[..n];
    FirstNewlineAt(p + t, n);
  }

  lemma ReadFinished(c: Codec, data: Bytes, count: nat)
    requires FirstNewline(data) < |data|
    ensures var n := FirstNewline(data);
      ReadFrom(c, data, count) ==
      if n > MAX_AUDIT_RECORD_BYTES then Err(LineTooLarge)
      else if n == 0 then ReadFrom(c, data[1..], count)
      else
        var record := CheckRecord(c, data[..n], count);
        if record.Err? then Err(record.error) else Prepend([record.value], ReadFrom(c, data[n + 1..], count + 1))
  {
    hide CheckRecord, FirstNewline;
  }

  /** One finished line is read, then the rest. */
  lemma ReadFirst(c: Codec, p: Bytes, t: Bytes, count: nat)
    requires p != [] && Terminated(p)
    ensures FirstNewline(p) < |p| && Terminated(p[FirstNewline(p) + 1..])
    ensures var n := FirstNewline(p);
      ReadFrom(c, p + t, count) ==
      if n > MAX_AUDIT_RECORD_BYTES then Err(LineTooLarge)
      else if n == 0 then ReadFrom(c, p[1..] + t, count)
      else
        var record := CheckRecord(c, p[..n], count);
        if record.Err? then Err(record.error) else Prepend([record.value], ReadFrom(c, p[n + 1..] + t, count + 1))
  {
    hide CheckRecord, ReadFrom, Prepend;
    FirstNewlineIn(p, t);
    var n := FirstNewline(p);
    ReadFinished(c, p + t, count);
    assert (p + t)[..n] == p[..n];
    assert (p + t)[n + 1..] == p[n + 1..] + t;
  }

  lemma ReadFirstAlone(c: Codec, p: Bytes, count: nat)
    requires p != [] && Terminated(p)
    ensures FirstNewline(p) < |p|
    ensures var n := FirstNewline(p);
      ReadFrom(c, p, count) ==
      if n > MAX_AUDIT_RECORD_BYTES then Err(LineTooLarge)
      else if n == 0 then ReadFrom(c, p[1..], count)
      else
        var record := CheckRecord(c, p[..n], count);
        if record.Err? then Err(record.error) else Prepend([record.value], ReadFrom(c, p[n + 1..], count + 1))
  {
    ReadFirst(c, p, [], count);
    hide ReadFrom, CheckRecord, Prepend;
    assert p + [] == p;
    assert p[FirstNewline(p) + 1..] + [] == p[FirstNewline(p) + 1..];
  }

  /** Reading p and then t. */
  function ReadBoth(c: Codec, p: Bytes, t: Bytes, count: nat): Result<seq<AuditEntry>, ReadError> {
    var r := ReadFrom(c, p, count);
    if r.Err? then r else Prepend(r.value, ReadFrom(c, t, count + |r.value|))
  }

  lemma ReadBothStep(c: Codec, e: AuditEntry, p: Bytes, q: Bytes, t: Bytes, count: nat)
    requires ReadFrom(c, p, count) == Prepend([e], ReadFrom(c, q, count + 1))
    ensures ReadBoth(c, p, t, count) == Prepend([e], ReadBoth(c, q, t, count + 1))
  {
    hide ReadFrom;
    var r := ReadFrom(c, q, count + 1);
    if r.Ok? {
      var tail := ReadFrom(c, t, count + 1 + |r.value|);
      if tail.Ok? {
        assert [e] + r.value + tail.value == [e] + (r.value + tail.value);
      }
    }
  }

  lemma ReadBothOf(c: Codec, p: Bytes, q: Bytes, t: Bytes, count: nat)
    ensures ReadFrom(c, p, count) == ReadFrom(c, q, count) ==> ReadBoth(c, p, t, count) == ReadBoth(c, q, t, count)
    ensures ReadFrom(c, p, count).Err? ==> ReadBoth(c, p, t, count) == ReadFrom(c, p, count)
  {
  }

  /** A blank line in front changes nothing, and a bad one is all there is. */
  lemma SplitWithoutRecord(c: Codec, p: Bytes, t: Bytes, count: nat)
    requires p != [] && Terminated(p)
    requires var n := FirstNewline(p);
      || n > MAX_AUDIT_RECORD_BYTES || (n > 0 && CheckRecord(c, p[..n], count).Err?)
      || (n == 0 && ReadFrom(c, p[1..] + t, count) == ReadBoth(c, p[1..], t, count))
    ensures ReadFrom(c, p + t, count) == ReadBoth(c, p, t, count)
  {
    ReadFirst(c, p, t, count);
    ReadFirstAlone(c, p, count);
    hide CheckRecord, ReadFrom, Prepend, FirstNewline, Terminated, ReadBoth;
    ReadBothOf(c, p, p[1..], t, count);
  }

  lemma SplitAfterRecord(c: Codec, p: Bytes, t: Bytes, count: nat)
    requires p != [] && Terminated(p) && 0 < FirstNewline(p) <= MAX_AUDIT_RECORD_BYTES
    requires FirstNewline(p) < |p| && CheckRecord(c, p[..FirstNewline(p)], count).Ok?
    requires var rest := p[FirstNewline(p) + 1..]; ReadFrom(c, rest + t, count + 1) == ReadBoth(c, rest, t, count + 1)
    ensures ReadFrom(c, p + t, count) == ReadBoth(c, p, t, count)
  {
    hide CheckRecord, ReadFrom, Prepend, FirstNewline, Terminated, ReadBoth;
    ReadFirst(c, p, t, count);
    ReadFirstAlone(c, p, count);
    var n := FirstNewline(p);
    ReadBothStep(c, CheckRecord(c, p[..n], count).value, p, p[n + 1..], t, count);
  }

  lemma SplitAtNothing(c: Codec, t: Bytes, count: nat)
    ensures ReadFrom(c, t, count) == ReadBoth(c, [], t, count)
  {
    assert ReadFrom(c, [], count) == Ok([]);
    hide ReadFrom;
    PrependNothing(ReadFrom(c, t, count));
  }

  /** Reading finished lines and what follows them is reading the one and then the other. */
  lemma {:induction false} ReadSplit(c: Codec, p: Bytes, t: Bytes, count: nat)
    requires Terminated(p)
    ensures ReadFrom(c, p + t, count) == ReadBoth(c, p, t, count)
    decreases |p|
  {
    hide CheckRecord, ReadFrom, Prepend, FirstNewline, Terminated, ReadBoth;
    if p == [] {
      SplitAtNothing(c, t, count);
      assert p + t == t;
    } else {
      ReadFirst(c, p, t, count);
      var n := FirstNewline(p);
      if n == 0 {
        ReadSplit(c, p[1..], t, count);
        SplitWithoutRecord(c, p, t, count);
      } else if n > MAX_AUDIT_RECORD_BYTES || CheckRecord(c, p[..n], count).Err? {
        SplitWithoutRecord(c, p, t, count);
      } else {
        ReadSplit(c, p[n + 1..], t, count + 1);
        SplitAfterRecord(c, p, t, count);
      }
    }
  }

  /** An open last line counts as a record exactly when it decodes. */
  lemma ReadOpenLine(c: Codec, t: Bytes, count: nat)
    requires NEWLINE !in t
    ensures ReadFrom(c, t, count) ==
            if t == [] then Ok([])
            else if |t| > MAX_AUDIT_RECORD_BYTES then Err(LineTooLarge)
            else if c.decode(t).None? then Ok([])
            else if !SmallOutcome(c.decode(t).value) then Err(ResultTooLarge)
            else if count == MAX_AUDIT_REPLAY_ENTRIES then Err(TooManyRecords)
            else Ok([c.decode(t).value])
  {
    assert t[..|t|] == t;
    FirstNewlineAt(t, |t|);
  }

  lemma ReadClosedLine(c: Codec, t: Bytes, count: nat)
    requires NEWLINE !in t && t != [] && |t| <= MAX_AUDIT_RECORD_BYTES
    ensures ReadFrom(c, t + [NEWLINE], count) ==
            if c.decode(t).None? then Err(Malformed)
            else if !SmallOutcome(c.decode(t).value) then Err(ResultTooLarge)
            else if count == MAX_AUDIT_REPLAY_ENTRIES then Err(TooManyRecords)
            else Ok([c.decode(t).value])
  {
    var line := t + [NEWLINE];
    assert line[..|t|] == t;
    FirstNewlineAt(line, |t|);
    assert line[|t| + 1..] == [];
    assert ReadFrom(c, [], count + 1) == Ok([]);
    if c.decode(t).Some? {
      assert [c.decode(t).value] + [] == [c.decode(t).value];
    }
  }

  /** What one line adds to the entries read so far. */
  function OneLine(c: Codec, log: seq<AuditEntry>, line: Bytes, finished: bool): Result<seq<AuditEntry>, ReadError> {
    if line == [] then Ok(log)
    else if |line| > 0x48_0000 then Err(LineTooLarge)
    else
      match c.decode(line)
      case None => if finished then Err(Malformed) else Ok(log)
      case Some(e) =>
        if e.outcome.Some? && |e.outcome.value.result| > 0x40_0000 then Err(ResultTooLarge)
        else if |log| == 10_000 then Err(TooManyRecords)
        else Ok(log + [e])
  }

  /**
   Reading goes line by line: an empty line says nothing, a finished one must be a record, and a last one that is open and no
   record is left out. This says of every file what is read.
   */
  lemma ReadLineByLine(c: Codec, file: Bytes, line: Bytes, closed: Bytes)
    requires Terminated(file) && NEWLINE !in line && closed == file + line + [10]
    ensures Read(c, []) == Ok([])
    ensures |file + line| > 0x400_0000 ==> Read(c, file + line) == Err(LogTooLarge)
    ensures |file + line| <= 0x400_0000 ==>
              Read(c, file + line) == if Read(c, file).Err? then Read(c, file) else OneLine(c, Read(c, file).value, line, false)
    ensures |closed| > 0x400_0000 ==> Read(c, closed) == Err(LogTooLarge)
    ensures |closed| <= 0x400_0000 ==>
              Read(c, closed) == if Read(c, file).Err? then Read(c, file) else OneLine(c, Read(c, file).value, line, true)
  {
    hide ReadFrom;
    ReadNothing(c);
    ReadSplit(c, file, line, 0);
    assert closed == file + (line + [NEWLINE]);
    ReadSplit(c, file, line + [NEWLINE], 0);
    if ReadFrom(c, file, 0).Ok? {
      var log := ReadFrom(c, file, 0).value;
      ReadOpenLine(c, line, |log|);
      if line != [] && |line| <= 0x48_0000 {
        ReadClosedLine(c, line, |log|);
      } else {
        ReadClosedEmpty(c, line, |log|);
      }
      assert log + [] == log;
    }
  }

  lemma ReadNothing(c: Codec)
    ensures ReadFrom(c, [], 0) == Ok([])
  {
  }

  lemma ReadClosedEmpty(c: Codec, line: Bytes, count: nat)
    requires NEWLINE !in line && (line == [] || |line| > MAX_AUDIT_RECORD_BYTES)
    ensures ReadFrom(c, line + [NEWLINE], count) == if line == [] then Ok([]) else Err(LineTooLarge)
  {
    var all := line + [NEWLINE];
    assert all[..|line|] == line;
    FirstNewlineAt(all, |line|);
  }

  /** Where the last line begins: after the last newline, or at the start. */
  function LastLine(data: Bytes): (r: nat)
    ensures r <= |data| && NEWLINE !in data[r..] && Terminated(data[..r])
  {
    if Terminated(data) then
      assert data[..|data|] == data;
      |data|
    else
      var front := data[..|data| - 1];
      var r := LastLine(front);
      assert data[..r] == front[..r];
      assert data[r..] == front[r..] + [data[|data| - 1]];
      r
  }

  lemma LastLineAt(data: Bytes, n: nat)
    requires n <= |data| && NEWLINE !in data[n..] && Terminated(data[..n])
    ensures LastLine(data) == n
  {
    NoneIn(data, n, |data|);
    NoneIn(data, LastLine(data), |data|);
  }

  predicate ValidTail(c: Codec, line: Bytes) {
    var e := c.decode(line);
    e.Some? && SmallOutcome(e.value)
  }

  /** The file as repair leaves it. */
  function Repaired(c: Codec, file: Bytes): Result<Bytes, ReadError> {
    if Terminated(file) then Ok(file)
    else if !ValidTail(c, file[LastLine(file)..]) then Ok(file[..LastLine(file)])
    else if |file| == MAX_AUDIT_LOG_BYTES then Err(LogTooLarge)
    else Ok(file + [NEWLINE])
  }

  lemma LastLineIsShort(c: Codec, file: Bytes)
    requires ReadFrom(c, file, 0).Ok?
    ensures |file| - LastLine(file) <= MAX_AUDIT_RECORD_BYTES
  {
    var p, t := file[..LastLine(file)], file[LastLine(file)..];
    assert file == p + t;
    ReadSplit(c, p, t, 0);
    ReadOpenLine(c, t, |ReadFrom(c, p, 0).value|);
  }

  /** The last line of a readable file lies wholly inside the window that repair looks at. */
  lemma LastLineInWindow(c: Codec, file: Bytes, start: nat)
    requires ReadFrom(c, file, 0).Ok? && start <= |file|
    requires start == 0 || start + MAX_AUDIT_RECORD_BYTES + 1 == |file|
    ensures start + LastLine(file[start..]) == LastLine(file)
  {
    LastLineIsShort(c, file);
    hide ReadFrom;
    var j := LastLine(file);
    var window := file[start..];
    assert window[j - start..] == file[j..];
    if start < j {
      assert file[..j][j - 1] == NEWLINE;
      assert window[..j - start][j - start - 1] == NEWLINE;
    }
    LastLineAt(window, j - start);
  }

  /** Repair closes the file and changes nothing that is read from it. */
  lemma RepairKeepsReading(c: Codec, file: Bytes)
    requires Read(c, file).Ok?
    ensures Repaired(c, file).Ok? ==> Terminated(Repaired(c, file).value) && Read(c, Repaired(c, file).value) == Read(c, file)
    ensures Repaired(c, file).Err? <==> |file| == MAX_AUDIT_LOG_BYTES && !Terminated(file) && ValidTail(c, file[LastLine(file)..])
  {
    hide ReadFrom, ValidTail, LastLine;
    if !Terminated(file) {
      var p, t := file[..LastLine(file)], file[LastLine(file)..];
      assert file == p + t;
      OpenLineRepaired(c, p, t);
    }
  }

  /** An open line that counts as a record counts as the same record once closed; one that does not can be dropped. */
  lemma OpenLineRepaired(c: Codec, p: Bytes, t: Bytes)
    requires Terminated(p) && NEWLINE !in t && t != [] && ReadFrom(c, p + t, 0).Ok?
    ensures ReadFrom(c, p + t, 0) == ReadFrom(c, if ValidTail(c, t) then p + t + [NEWLINE] else p, 0)
    ensures Terminated(p + t + [NEWLINE])
  {
    ReadSplit(c, p, t, 0);
    var before := ReadFrom(c, p, 0).value;
    ReadOpenLine(c, t, |before|);
    if ValidTail(c, t) {
      assert p + t + [NEWLINE] == p + (t + [NEWLINE]);
      ReadSplit(c, p, t + [NEWLINE], 0);
      ReadClosedLine(c, t, |before|);
      hide ReadFrom;
    } else {
      hide ReadFrom;
      assert before + [] == before;
    }
  }

  /** Room for one more record in a file from which log is read. */
  predicate Fits(c: Codec, file: Bytes, log: seq<AuditEntry>, e: AuditEntry) {
    && |c.encode(e)| <= MAX_AUDIT_RECORD_BYTES
    && |log| < MAX_AUDIT_REPLAY_ENTRIES
    && |file| + |c.encode(e)| + 1 <= MAX_AUDIT_LOG_BYTES
  }

  /** An appended record reads back as exactly one more entry, provided its result is not oversized; otherwise the log is unreadable. */
  lemma AppendReadsBack(c: Codec, file: Bytes, log: seq<AuditEntry>, e: AuditEntry)
    requires Lawful(c) && Terminated(file) && Read(c, file) == Ok(log) && Fits(c, file, log, e)
    ensures Terminated(file + Line(c, e))
    ensures Read(c, file + Line(c, e)) == if SmallOutcome(e) then Ok(log + [e]) else Err(ResultTooLarge)
  {
    ReadSplit(c, file, Line(c, e), 0);
    ReadClosedLine(c, c.encode(e), |log|);
    assert (file + Line(c, e))[|file| + |c.encode(e)|] == NEWLINE;
  }

  /** What a crash after k bytes of the line leaves. */
  function Torn(c: Codec, file: Bytes, e: AuditEntry, k: nat): Bytes
    requires k <= |Line(c, e)|
  {
    file + Line(c, e)[..k]
  }

  /** The log that survives such a crash: the record counts once all its bytes but the newline are there. */
  function Survives(c: Codec, log: seq<AuditEntry>, e: AuditEntry, k: nat): seq<AuditEntry> {
    if k < |c.encode(e)| then log else log + [e]
  }

  /**
   After a crash at any byte of an append, reading gives the old log or the old log and the record,
   and repair brings the file to exactly the bytes before the append or exactly the bytes after it.
   */
  lemma CrashAtomicAppend(c: Codec, file: Bytes, log: seq<AuditEntry>, e: AuditEntry, k: nat)
    requires Lawful(c) && Terminated(file) && Read(c, file) == Ok(log) && Fits(c, file, log, e)
    requires SmallOutcome(e) && k <= |Line(c, e)|
    ensures Read(c, Torn(c, file, e, k)) == Ok(Survives(c, log, e, k))
    ensures Repaired(c, Torn(c, file, e, k)) == Ok(if k < |c.encode(e)| then file else file + Line(c, e))
  {
    hide ReadFrom;
    if k == |Line(c, e)| {
      assert Line(c, e)[..k] == Line(c, e);
      AppendReadsBack(c, file, log, e);
    } else {
      var t := Line(c, e)[..k];
      assert t == c.encode(e)[..k];
      TornLine(c, file, log, e, t);
    }
  }

  lemma TornLine(c: Codec, file: Bytes, log: seq<AuditEntry>, e: AuditEntry, t: Bytes)
    requires Lawful(c) && Terminated(file) && Read(c, file) == Ok(log) && Fits(c, file, log, e)
    requires SmallOutcome(e) && |t| <= |c.encode(e)| && t == c.encode(e)[..|t|]
    ensures Read(c, file + t) == Ok(Survives(c, log, e, |t|))
    ensures Repaired(c, file + t) == Ok(if |t| < |c.encode(e)| then file else file + Line(c, e))
  {
    assert |t| == |c.encode(e)| ==> t == c.encode(e);
    ReadSplit(c, file, t, 0);
    ReadOpenLine(c, t, |log|);
    hide ReadFrom;
    assert log + [] == log;
    var torn := file + t;
    assert torn[..|file|] == file && torn[|file|..] == t;
    LastLineAt(torn, |file|);
    assert t == [] ==> torn == file;
    assert t != [] ==> torn[|torn| - 1] == t[|t| - 1] && t[|t| - 1] in t;
    assert |t| == |c.encode(e)| ==> torn + [NEWLINE] == file + Line(c, e);
  }

  // ----- the writer -----

  /** A file on disk: it outlives the process that has it open. */
  class LogFile {
    var data: Bytes

    constructor ()
      ensures data == []
    {
      data := [];
    }
  }

  method RepairAuditTail(c: Codec, file: LogFile) returns (r: Result<(), ReadError>)
    requires ReadFrom(c, file.data, 0).Ok?
    modifies file
    ensures r.Ok? <==> Repaired(c, old(file.data)).Ok?
    ensures file.data == if r.Ok? then Repaired(c, old(file.data)).value else old(file.data)
    ensures r.Err? ==> r.error == LogTooLarge
  {
    var size := |file.data|;
    if size == 0 {
      return Ok(());
    }
    var readSize := if size < MAX_AUDIT_RECORD_BYTES + 1 then size else MAX_AUDIT_RECORD_BYTES + 1;
    var start := size - readSize;
    var window := file.data[start..];
    RepairedByWindow(c, file.data, start);
    hide ReadFrom, ValidTail, LastLine, Repaired;
    if window[|window| - 1] == NEWLINE {
      return Ok(());
    }
    var tailStart := LastLine(window);
    if ValidTail(c, window[tailStart..]) {
      if size == MAX_AUDIT_LOG_BYTES {
        return Err(LogTooLarge);
      }
      file.data := file.data + [NEWLINE];
    } else {
      file.data := file.data[..start + tailStart];
    }
    r := Ok(());
  }

  /** What the window of the last bytes says about the whole file. */
  lemma RepairedByWindow(c: Codec, data: Bytes, start: nat)
    requires ReadFrom(c, data, 0).Ok? && data != [] && start < |data|
    requires start == 0 || start + MAX_AUDIT_RECORD_BYTES + 1 == |data|
    ensures var window := data[start..];
      var tail := LastLine(window);
      Repaired(c, data) ==
      if window[|window| - 1] == NEWLINE then Ok(data)
      else if !ValidTail(c, window[tail..]) then Ok(data[..start + tail])
      else if |data| == MAX_AUDIT_LOG_BYTES then Err(LogTooLarge)
      else Ok(data + [NEWLINE])
  {
    LastLineInWindow(c, data, start);
    hide ReadFrom, ValidTail, LastLine;
    var window := data[start..];
    assert window[|window| - 1] == data[|data| - 1];
    assert window[LastLine(window)..] == data[start + LastLine(window)..];
  }

  class Audit {
    const codec: Codec
    const file: LogFile
    var open: bool
    var reserved: map<string, nat>
    var reservedBytes: nat
    var recordCount: nat

    /** The records the file held when it was opened and those appended since. */
    ghost var log: seq<AuditEntry>

    ghost predicate Valid()
      reads this, file
    {
      && recordCount == |log|
      && Terminated(file.data)
      && (forall id :: id in reserved ==> reserved[id] == MAX_AUDIT_RECORD_BYTES)
      && reservedBytes == |reserved| * MAX_AUDIT_RECORD_BYTES
      && Backed(Sizes())
    }

    ghost predicate Readable()
      reads this, file
    {
      Read(codec, file.data) == Ok(log)
    }

    ghost function Sizes(): Ledger
      reads this, file
    {
      Ledger(|file.data|, recordCount, reserved.Keys)
    }

    constructor (codec: Codec, file: LogFile, ghost log: seq<AuditEntry>, recordCount: nat)
      requires Terminated(file.data) && |file.data| <= MAX_AUDIT_LOG_BYTES
      requires recordCount == |log| <= MAX_AUDIT_REPLAY_ENTRIES
      ensures Valid() && open && reserved == map[]
      ensures this.codec == codec && this.file == file && this.log == log
    {
      this.codec := codec;
      this.file := file;
      this.log := log;
      this.recordCount := recordCount;
      open := true;
      reserved := map[];
      reservedBytes := 0;
    }

    /** Takes or gives back the reservation once the record is in the file. */
    method Settle(event: Event, id: string)
      requires forall id :: id in reserved ==> reserved[id] == MAX_AUDIT_RECORD_BYTES
      requires reservedBytes == |reserved| * MAX_AUDIT_RECORD_BYTES
      requires event.Approve? ==> id !in reserved
      modifies this`reserved, this`reservedBytes
      ensures forall id :: id in reserved ==> reserved[id] == MAX_AUDIT_RECORD_BYTES
      ensures reservedBytes == |reserved| * MAX_AUDIT_RECORD_BYTES
      ensures reserved.Keys == KeptIds(old(reserved.Keys), event, id)
    {
      HowMany(reserved, event, id, MAX_AUDIT_RECORD_BYTES);
      match event {
        case Approve =>
          reserved := reserved[id := MAX_AUDIT_RECORD_BYTES];
          reservedBytes := reservedBytes + MAX_AUDIT_RECORD_BYTES;
        case Execute | Fail =>
          if id in reserved {
            reservedBytes := reservedBytes - reserved[id];
            reserved := reserved - {id};
          }
        case _ =>
      }
    }

    method Append(e: AuditEntry) returns (r: Result<(), AppendError>)
      requires Valid()
      modifies this, file
      ensures Valid()
      ensures r.Ok? <==> open && Admit(old(Sizes()), e.event, e.id, |codec.encode(e)|).Ok?
      ensures r.Ok? ==> Sizes() == Admit(old(Sizes()), e.event, e.id, |codec.encode(e)|).value
      ensures var kept := KeptIds(old(reserved.Keys), e.event, e.id);
        && (r.Ok? ==> reserved.Keys == kept && recordCount == old(recordCount) + 1)
        && (r.Ok? <==> open && |codec.encode(e)| <= 0x48_0000 && !(e.event.Approve? && e.id in old(reserved))
                       && old(recordCount) + 1 + |kept| <= 10_000
                       && |old(file.data)| + |codec.encode(e)| + 1 + |kept| * 0x48_0000 <= 0x400_0000)
      ensures r == Err(RecordTooLarge) <==> |codec.encode(e)| > 0x48_0000
      ensures r.Ok? ==> file.data == old(file.data) + Line(codec, e) && log == old(log) + [e]
      ensures r.Err? ==> file.data == old(file.data) && log == old(log) && Sizes() == old(Sizes())
      ensures open == old(open)
      ensures r.Ok? && old(Readable()) && Lawful(codec) && SmallOutcome(e) ==> Readable()
    {
      hide Read, Lawful, ReadFrom, SmallOutcome, Terminated, KeptIds, Backed, Taken, Admit;
      AdmitsWhen(Sizes(), e.event, e.id, |codec.encode(e)|);
      var line := codec.encode(e);
      if |line| > MAX_AUDIT_RECORD_BYTES {
        return Err(RecordTooLarge);
      }
      if !open {
        return Err(Closed);
      }
      line := line + [NEWLINE];
      var reservedAfter := reservedBytes;
      var reservation := if e.id in reserved then reserved[e.id] else 0;
      var reservedEntriesAfter := |reserved|;
      ghost var l := Sizes();
      if e.event.Execute? || e.event.Fail? {
        reservedAfter := reservedAfter - reservation;
        if reservation != 0 {
          reservedEntriesAfter := reservedEntriesAfter - 1;
        }
      }
      HowMany(reserved, e.event, e.id, MAX_AUDIT_RECORD_BYTES);
      var required := |line|;
      var requiredEntries := 1;
      if e.event.Approve? {
        if reservation != 0 {
          return Err(AlreadyReserved);
        }
        required := required + MAX_AUDIT_RECORD_BYTES;
        requiredEntries := requiredEntries + 1;
      }
      if recordCount + reservedEntriesAfter + requiredEntries > MAX_AUDIT_REPLAY_ENTRIES {
        return Err(TooManyEntries);
      }
      if |file.data| + reservedAfter + required > MAX_AUDIT_LOG_BYTES {
        return Err(LogFull);
      }
      AdmitKeepsBacked(l, e.event, e.id, |codec.encode(e)|);
      ReadableAfter(codec, file.data, log, e);
      file.data := file.data + line;
      Settle(e.event, e.id);
      recordCount := recordCount + 1;
      log := log + [e];
      assert Sizes() == Ledger(l.size + |line|, l.count + 1, KeptIds(l.reserved, e.event, e.id));
      r := Ok(());
    }

    method Close()
      requires Valid()
      modifies this
      ensures Valid() && !open && log == old(log) && Sizes() == old(Sizes())
    {
      open := false;
    }
  }

  lemma ReadableAfter(c: Codec, file: Bytes, log: seq<AuditEntry>, e: AuditEntry)
    requires Terminated(file) && Fits(c, file, log, e)
    ensures Terminated(file + Line(c, e))
    ensures Lawful(c) && Read(c, file) == Ok(log) && SmallOutcome(e) ==> Read(c, file + Line(c, e)) == Ok(log + [e])
  {
    assert (file + Line(c, e))[|file| + |c.encode(e)|] == NEWLINE;
    if Lawful(c) && Read(c, file) == Ok(log) {
      AppendReadsBack(c, file, log, e);
    }
  }

  /** How many reservations there are once the record is in. */
  lemma HowMany(reserved: map<string, nat>, event: Event, id: string, n: nat)
    ensures |reserved.Keys| == |reserved|
    ensures var kept := KeptIds(reserved.Keys, event, id);
      && |kept| == (if event.Approve? && id !in reserved then |reserved| + 1
                    else if (event.Execute? || event.Fail?) && id in reserved then |reserved| - 1
                    else |reserved|)
      && (event.Approve? ==> kept == reserved[id := n].Keys)
      && (event.Execute? || event.Fail? ==> kept == (reserved - {id}).Keys)
      && (!event.Approve? && !event.Execute? && !event.Fail? ==> kept == reserved.Keys)
    ensures id in reserved ==> |reserved - {id}| == |reserved| - 1
    ensures id !in reserved ==> |reserved[id := n]| == |reserved| + 1
    ensures (event.Execute? || event.Fail?) && id !in reserved ==> KeptIds(reserved.Keys, event, id) == reserved.Keys
  {
    assert |reserved.Keys + {id}| == |reserved.Keys| + if id in reserved then 0 else 1;
    assert reserved[id := n].Keys == reserved.Keys + {id};
    assert (reserved - {id}).Keys == reserved.Keys - {id};
  }

  /** Opening reads the log, repairs its tail and starts with no reservation. */
  method OpenAudit(c: Codec, file: LogFile) returns (r: Result<Audit, ReadError>)
    modifies file
    ensures r.Ok? <==> Read(c, old(file.data)).Ok? && Repaired(c, old(file.data)).Ok?
    ensures r.Ok? ==> fresh(r.value) && r.value.Valid() && r.value.Readable() && r.value.open
    ensures r.Ok? ==> r.value.codec == c && r.value.file == file && r.value.reserved == map[]
    ensures r.Ok? ==> Ok(r.value.log) == Read(c, old(file.data)) && file.data == Repaired(c, old(file.data)).value
    ensures r.Err? ==> file.data == old(file.data)
  {
    if |file.data| > MAX_AUDIT_LOG_BYTES {
      return Err(LogTooLarge);
    }
    var entries := ReadAuditLog(c, file.data);
    if entries.Err? {
      return Err(entries.error);
    }
    RepairKeepsReading(c, file.data);
    ReadBounded(c, file.data, 0);
    var repaired := RepairAuditTail(c, file);
    if repaired.Err? {
      return Err(repaired.error);
    }
    var a := new Audit(c, file, entries.value, |entries.value|);
    r := Ok(a);
  }

  lemma {:induction false} ReadBounded(c: Codec, data: Bytes, count: nat)
    requires count <= MAX_AUDIT_REPLAY_ENTRIES
    ensures var r := ReadFrom(c, data, count); r.Ok? ==> count + |r.value| <= MAX_AUDIT_REPLAY_ENTRIES
    decreases |data|
  {
    hide CheckRecord;
    var n := FirstNewline(data);
    if data == [] || n > MAX_AUDIT_RECORD_BYTES {
    } else if n == |data| {
      RecordCounted(c, data, count);
    } else if n == 0 {
      ReadBounded(c, data[1..], count);
    } else {
      RecordCounted(c, data[..n], count);
      if CheckRecord(c, data[..n], count).Ok? {
        ReadBounded(c, data[n + 1..], count + 1);
      }
    }
  }

  lemma RecordCounted(c: Codec, line: Bytes, count: nat)
    requires count <= MAX_AUDIT_REPLAY_ENTRIES
    ensures CheckRecord(c, line, count).Ok? ==> count < MAX_AUDIT_REPLAY_ENTRIES
  {
  }
}
