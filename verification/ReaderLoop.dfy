// src/carrier.rs, reader_loop: decrypt, decode and dispatch every record, tolerate short streaks of bad
// ones. The codec is a parameter: a state and a function from a record to a plaintext or a refusal.
module ReaderLoop {
  import opened Bytes
  import opened Mux
  import opened Records
  import opened Endpoint

  const MAX_CONSECUTIVE_BAD_RECORDS := 8

  datatype Decoder<!S> = Decoder(decrypt: (S, seq<Byte>) -> (S, Option<seq<Byte>>))

  // ── what the loop computes ─────────────────────────────────────────────────

  /** The loop after some records: codec state, streak, frames dispatched, and the fatal cause if any. */
  datatype Progress<S> = Progress(codec: S, streak: nat, out: seq<Frame>, fatal: Option<DeathCause>)

  function AtStart<S>(codec: S): Progress<S> {
    Progress(codec, 0, [], None)
  }

  function Bad<S>(p: Progress<S>, codec: S, cause: DeathCause): Progress<S> {
    Progress(codec, p.streak + 1, p.out,
             if p.streak + 1 >= MAX_CONSECUTIVE_BAD_RECORDS then Some(cause) else None)
  }

  function OnRecord<S>(c: Decoder<S>, p: Progress<S>, record: seq<Byte>): Progress<S> {
    if p.fatal.Some? then p
    else
      var (codec, plain) := c.decrypt(p.codec, record);
      match plain
      case None => Bad(p, codec, WireCorruption)
      case Some(bytes) =>
        match Decode(bytes)
        case Err(_) => Bad(p, codec, BadFrame)
        case Ok(frame) => Progress(codec, 0, p.out + [frame], None)
  }

  function OnRecords<S>(c: Decoder<S>, p: Progress<S>, records: seq<seq<Byte>>): Progress<S> {
    if |records| == 0 then p
    else OnRecord(c, OnRecords(c, p, records[..|records| - 1]), records[|records| - 1])
  }

  lemma OnRecordsSnoc<S>(c: Decoder<S>, p: Progress<S>, records: seq<seq<Byte>>, record: seq<Byte>)
    ensures OnRecords(c, p, records + [record]) == OnRecord(c, OnRecords(c, p, records), record)
  {
    assert (records + [record])[..|records|] == records;
  }

  /** After a fatal record nothing is dispatched any more. */
  lemma {:induction false} FatalStays<S>(c: Decoder<S>, p: Progress<S>, a: seq<seq<Byte>>, b: seq<seq<Byte>>)
    requires OnRecords(c, p, a).fatal.Some?
    ensures OnRecords(c, p, a + b) == OnRecords(c, p, a)
  {
    if |b| == 0 {
      assert a + b == a;
    } else {
      FatalStays(c, p, a, b[..|b| - 1]);
      assert a + b == (a + b[..|b| - 1]) + [b[|b| - 1]];
      OnRecordsSnoc(c, p, a + b[..|b| - 1], b[|b| - 1]);
    }
  }

  // ── the loop itself ────────────────────────────────────────────────────────

  /** How the wire ends for this reader, if corruption does not end it first. */
  datatype ReadEnd = Eof | IoFailure | DeadSeen

  function EndCause(end: ReadEnd): DeathCause {
    match end
    case Eof => PeerClosed
    case IoFailure => ReadError
    case DeadSeen => Killed
  }

  /** The body of the inner loop: decrypt, decode, and either dispatch the frame or count a bad record. */
  method HandleRecord<S>(c: Decoder<S>, codec: S, streak: nat, out: seq<Frame>, record: seq<Byte>)
    returns (codec': S, streak': nat, out': seq<Frame>, fatal: Option<DeathCause>)
    ensures Progress(codec', streak', out', fatal) == OnRecord(c, Progress(codec, streak, out, None), record)
  {
    var (next, plain) := c.decrypt(codec, record);
    codec', streak', out', fatal := next, streak, out, None;
    if plain.None? {
      streak' := streak' + 1;
      if streak' >= MAX_CONSECUTIVE_BAD_RECORDS {
        fatal := Some(WireCorruption);
      }
      return;
    }
    var decoded := Decode(plain.value);
    if decoded.Err? {
      streak' := streak' + 1;
      if streak' >= MAX_CONSECUTIVE_BAD_RECORDS {
        fatal := Some(BadFrame);
      }
      return;
    }
    streak' := 0;
    out' := out' + [decoded.value];
  }

  /** The inner loop: every complete record already buffered. */
  method DispatchBuffered<S>(c: Decoder<S>, ghost first: S, records: RecordBuf, codec: S, streak: nat, out: seq<Frame>)
    returns (codec': S, streak': nat, out': seq<Frame>, fatal: Option<DeathCause>)
    requires records.Valid()
    requires OnRecords(c, AtStart(first), records.taken) == Progress(codec, streak, out, None)
    modifies records
    ensures records.Valid() && records.pushed == old(records.pushed)
    ensures OnRecords(c, AtStart(first), records.taken) == Progress(codec', streak', out', fatal)
    ensures fatal.None? ==> !Whole(records.Pending())
  {
    codec', streak', out', fatal := codec, streak, out, None;
    while true
      invariant records.Valid() && records.pushed == old(records.pushed)
      invariant OnRecords(c, AtStart(first), records.taken) == Progress(codec', streak', out', None)
      invariant fatal == None
      decreases |records.Pending()|
    {
      ghost var taken := records.taken;
      var record := records.TakeRecord();
      if record.None? {
        return;
      }
      OnRecordsSnoc(c, AtStart(first), taken, record.value);
      codec', streak', out', fatal := HandleRecord(c, codec', streak', out', record.value);
      if fatal.Some? {
        return;
      }
    }
  }

  /** `chunks` are the successful socket reads up to the end. The outcome is a function of their
      concatenation alone: how the stream was cut into reads does not matter. (The source drains first and
      reads then; with the buffer empty at the start that is the same as reading first.) */
  method ReadWire<S>(c: Decoder<S>, codec: S, chunks: seq<seq<Byte>>, end: ReadEnd)
    returns (out: seq<Frame>, streak: nat, cause: DeathCause)
    ensures var p := OnRecords(c, AtStart(codec), RecordsOf(Flat(chunks)));
            && out == p.out && streak == p.streak
            && (p.fatal.Some? ==> cause == p.fatal.value && (cause == WireCorruption || cause == BadFrame))
            && (cause == PeerClosed <==> p.fatal.None? && end == Eof)
            && (cause == ReadError <==> p.fatal.None? && end == IoFailure)
            && (cause == Killed <==> p.fatal.None? && end == DeadSeen)
  {
    var records := new RecordBuf();
    var state, fatal := codec, None;
    out, streak := [], 0;
    for i := 0 to |chunks|
      invariant records.Valid() && fresh(records) && !Whole(records.Pending())
      invariant records.pushed == Flat(chunks[..i])
      invariant OnRecords(c, AtStart(codec), records.taken) == Progress(state, streak, out, None)
    {
      records.Push(chunks[i]);
      assert chunks[..i + 1] == chunks[..i] + [chunks[i]];
      FlatSnoc(chunks[..i], chunks[i]);
      state, streak, out, fatal := DispatchBuffered(c, codec, records, state, streak, out);
      if fatal.Some? {
        StoppedEarly(c, codec, records.taken, records.Pending(), chunks, i + 1);
        FatalCause(c, AtStart(codec), records.taken);
        return out, streak, fatal.value;
      }
    }
    assert chunks[..|chunks|] == chunks;
    RecordsOfRecords(records.taken, records.Pending());
    assert records.taken + [] == records.taken;
    cause := EndCause(end);
  }

  /** A fatal record is a case of corruption. */
  lemma {:induction false} FatalCause<S>(c: Decoder<S>, p: Progress<S>, records: seq<seq<Byte>>)
    requires p.fatal.None? || p.fatal == Some(WireCorruption) || p.fatal == Some(BadFrame)
    ensures var q := OnRecords(c, p, records);
            q.fatal.None? || q.fatal == Some(WireCorruption) || q.fatal == Some(BadFrame)
  {
    if |records| > 0 {
      FatalCause(c, p, records[..|records| - 1]);
    }
  }

  /** Leaving at a fatal record, the bytes not yet parsed or read make no difference. */
  lemma StoppedEarly<S>(c: Decoder<S>, codec: S, taken: seq<seq<Byte>>, pending: seq<Byte>,
                        chunks: seq<seq<Byte>>, i: nat)
    requires i <= |chunks| && Flat(chunks[..i]) == Flat(taken) + pending
    requires forall k :: 0 <= k < |taken| ==> Exact(taken[k])
    requires OnRecords(c, AtStart(codec), taken).fatal.Some?
    ensures OnRecords(c, AtStart(codec), RecordsOf(Flat(chunks))) == OnRecords(c, AtStart(codec), taken)
  {
    var rest := pending + Flat(chunks[i..]);
    WireSplit(taken, pending, chunks, i);
    RecordsOfRecords(taken, rest);
    FatalStays(c, AtStart(codec), taken, RecordsOf(rest));
  }

  lemma WireSplit(taken: seq<seq<Byte>>, pending: seq<Byte>, chunks: seq<seq<Byte>>, i: nat)
    requires i <= |chunks| && Flat(chunks[..i]) == Flat(taken) + pending
    ensures Flat(chunks) == Flat(taken) + (pending + Flat(chunks[i..]))
  {
    assert chunks == chunks[..i] + chunks[i..];
    FlatAppend(chunks[..i], chunks[i..]);
    Assoc(Flat(taken), pending, Flat(chunks[i..]));
  }

  /** Two ways of cutting the same bytes into reads give the same frames, streak and verdict. */
  method ReadTwice<S>(c: Decoder<S>, codec: S, chunks: seq<seq<Byte>>, others: seq<seq<Byte>>, end: ReadEnd)
    returns (same: bool)
    requires Flat(chunks) == Flat(others)
    ensures same
  {
    var out, streak, cause := ReadWire(c, codec, chunks, end);
    var out', streak', cause' := ReadWire(c, codec, others, end);
    same := out == out' && streak == streak' && cause == cause';
  }

  // ── the streak law ─────────────────────────────────────────────────────────

  /** What a record turns out to be, whatever the streak. */
  datatype Outcome = Good(frame: Frame) | Rejected | Malformed

  function CodecAfter<S>(c: Decoder<S>, codec: S, records: seq<seq<Byte>>): S {
    if |records| == 0 then codec
    else c.decrypt(CodecAfter(c, codec, records[..|records| - 1]), records[|records| - 1]).0
  }

  function Judge<S>(c: Decoder<S>, codec: S, record: seq<Byte>): Outcome {
    match c.decrypt(codec, record).1
    case None => Rejected
    case Some(bytes) => match Decode(bytes) case Ok(frame) => Good(frame) case Err(_) => Malformed
  }

  function Outcomes<S>(c: Decoder<S>, codec: S, records: seq<seq<Byte>>): (os: seq<Outcome>)
    ensures |os| == |records|
  {
    if |records| == 0 then []
    else
      var front := records[..|records| - 1];
      Outcomes(c, codec, front) + [Judge(c, CodecAfter(c, codec, front), records[|records| - 1])]
  }

  function GoodFrames(os: seq<Outcome>): seq<Frame> {
    if |os| == 0 then []
    else
      var front, last := GoodFrames(os[..|os| - 1]), os[|os| - 1];
      if last.Good? then front + [last.frame] else front
  }

  /** Record `k` completes eight consecutive bad ones. */
  predicate Completes(os: seq<Outcome>, k: nat) {
    7 <= k < |os| && forall j :: k - 8 < j <= k ==> !os[j].Good?
  }

  /** The first record to do so. */
  predicate Kills(os: seq<Outcome>, k: nat) {
    Completes(os, k) && forall j: nat :: j < k ==> !Completes(os, j)
  }

  /** The last `n` records were bad and the one before them, if any, was good. */
  predicate TrailingBad(os: seq<Outcome>, n: nat) {
    && n <= |os|
    && (forall j :: |os| - n <= j < |os| ==> !os[j].Good?)
    && (n < |os| ==> os[|os| - n - 1].Good?)
  }

  predicate Survives(os: seq<Outcome>) {
    forall k: nat :: k < |os| ==> !Completes(os, k)
  }

  /** Where the loop stands, said of the outcomes alone. */
  ghost predicate AsOutcomes<S>(p: Progress<S>, os: seq<Outcome>) {
    if p.fatal.None?
    then Survives(os) && p.out == GoodFrames(os) && TrailingBad(os, p.streak)
         && p.streak < MAX_CONSECUTIVE_BAD_RECORDS
    else exists k: nat :: Kills(os, k) && p.out == GoodFrames(os[..k])
                          && p.fatal.value == if os[k].Rejected? then WireCorruption else BadFrame
  }

  lemma {:induction false} Judged<S>(c: Decoder<S>, codec: S, records: seq<seq<Byte>>)
    ensures AsOutcomes(OnRecords(c, AtStart(codec), records), Outcomes(c, codec, records))
    ensures OnRecords(c, AtStart(codec), records).fatal.None?
            ==> OnRecords(c, AtStart(codec), records).codec == CodecAfter(c, codec, records)
  {
    if |records| > 0 {
      var front := records[..|records| - 1];
      Judged(c, codec, front);
      var os, o := Outcomes(c, codec, front), Judge(c, CodecAfter(c, codec, front), records[|records| - 1]);
      JudgedNext(c, OnRecords(c, AtStart(codec), front), os, o, records[|records| - 1]);
    }
  }

  lemma OutcomesSnoc(os: seq<Outcome>, o: Outcome)
    ensures GoodFrames(os + [o]) == if o.Good? then GoodFrames(os) + [o.frame] else GoodFrames(os)
    ensures forall k: nat :: k < |os| ==> (Completes(os + [o], k) <==> Completes(os, k))
  {
    assert (os + [o])[..|os|] == os;
  }

  lemma JudgedNext<S>(c: Decoder<S>, p: Progress<S>, os: seq<Outcome>, o: Outcome, record: seq<Byte>)
    requires AsOutcomes(p, os) && (p.fatal.None? ==> o == Judge(c, p.codec, record))
    ensures AsOutcomes(OnRecord(c, p, record), os + [o])
  {
    OutcomesSnoc(os, o);
    var all := os + [o];
    if p.fatal.Some? {
      var k: nat :| Kills(os, k) && p.out == GoodFrames(os[..k])
                    && p.fatal.value == if os[k].Rejected? then WireCorruption else BadFrame;
      assert all[..k] == os[..k] && Kills(all, k);
    } else if o.Good? {
      assert TrailingBad(all, 0);
      assert !Completes(all, |os|);
    } else {
      assert TrailingBad(all, p.streak + 1);
      if p.streak + 1 >= MAX_CONSECUTIVE_BAD_RECORDS {
        assert Completes(all, |os|);
        assert all[..|os|] == os && Kills(all, |os|);
      } else {
        assert !Completes(all, |os|) by {
          assert p.streak < |os| ==> all[|os| - p.streak - 1].Good?;
        }
      }
    }
  }

  /** There is only one first record that kills. */
  lemma OneKiller<S>(p: Progress<S>, os: seq<Outcome>)
    requires p.fatal.Some? && AsOutcomes(p, os)
    ensures exists k: nat :: Completes(os, k)
    ensures forall k: nat :: Kills(os, k) ==>
              && p.out == GoodFrames(os[..k])
              && p.fatal == Some(if os[k].Rejected? then WireCorruption else BadFrame)
  {
    var k: nat :| Kills(os, k) && p.out == GoodFrames(os[..k])
                  && p.fatal.value == if os[k].Rejected? then WireCorruption else BadFrame;
    assert Completes(os, k);
    forall j: nat | Kills(os, j)
      ensures j == k
    {
      assert Completes(os, j);
    }
  }

  /** The reader dies of corruption if and only if some record completes eight consecutive bad ones; it dies
      at the first such record, with the cause that record gives, having dispatched exactly the good frames
      before it; otherwise every good frame was dispatched and the streak is the trailing bad run. */
  ghost predicate StreakVerdict<S>(p: Progress<S>, os: seq<Outcome>) {
    && (p.fatal.Some? <==> exists k: nat :: Completes(os, k))
    && (forall k: nat :: Kills(os, k) ==>
          && p.out == GoodFrames(os[..k])
          && p.fatal == Some(if os[k].Rejected? then WireCorruption else BadFrame))
    && (p.fatal.None? ==> p.out == GoodFrames(os) && TrailingBad(os, p.streak))
  }

  lemma VerdictOf<S>(p: Progress<S>, os: seq<Outcome>)
    requires AsOutcomes(p, os)
    ensures StreakVerdict(p, os)
  {
    if p.fatal.Some? {
      OneKiller(p, os);
    }
  }

  /** The exact streak law. */
  lemma StreakLaw<S>(c: Decoder<S>, codec: S, records: seq<seq<Byte>>)
    ensures StreakVerdict(OnRecords(c, AtStart(codec), records), Outcomes(c, codec, records))
  {
    Judged(c, codec, records);
    VerdictOf(OnRecords(c, AtStart(codec), records), Outcomes(c, codec, records));
  }
}
