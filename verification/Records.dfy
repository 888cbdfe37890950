// TLS-dressed records (the 5-byte header of section 5.1 of RFC 8446) cut out of a byte stream: the cursor
// buffer of src/carrier.rs and the draining reader of src/handshake.rs, both against one specification.
module Records {
  import opened Bytes

  const HEADER := 5
  const READ_CHUNK := 16384

  /** The declared length of the record at the head of `bs`, header included. */
  function RecordLen(bs: seq<Byte>): (n: nat)
    requires |bs| >= HEADER
    ensures HEADER <= n <= HEADER + 65535
  {
    HEADER + FromBe16(bs[3], bs[4])
  }

  /** A complete record stands at the head of `bs`. */
  predicate Whole(bs: seq<Byte>) {
    |bs| >= HEADER && |bs| >= RecordLen(bs)
  }

  /** `r` is one record and nothing more. */
  predicate Exact(r: seq<Byte>) {
    |r| >= HEADER && |r| == RecordLen(r)
  }

  /** The complete records of a byte stream, in order, and what follows the last of them. */
  function RecordsOf(bs: seq<Byte>): seq<seq<Byte>> {
    if Whole(bs) then [bs[..RecordLen(bs)]] + RecordsOf(bs[RecordLen(bs)..]) else []
  }

  function Leftover(bs: seq<Byte>): seq<Byte> {
    if Whole(bs) then Leftover(bs[RecordLen(bs)..]) else bs
  }

  /** Five bytes of header, the last two of them the length of what follows, high byte first. */
  lemma FirstRecord(bs: seq<Byte>)
    ensures RecordsOf(bs) != [] <==> |bs| >= 5 && |bs| >= 5 + bs[3] as int * 256 + bs[4]
    ensures RecordsOf(bs) != [] ==> RecordsOf(bs)[0] == bs[..5 + bs[3] as int * 256 + bs[4]]
  {
  }

  lemma {:induction false} RecordsConserve(bs: seq<Byte>)
    ensures Flat(RecordsOf(bs)) + Leftover(bs) == bs
    ensures !Whole(Leftover(bs))
    ensures forall k :: 0 <= k < |RecordsOf(bs)| ==> Exact(RecordsOf(bs)[k])
  {
    if Whole(bs) {
      var n := RecordLen(bs);
      RecordsConserve(bs[n..]);
      FlatCons(bs[..n], RecordsOf(bs[n..]));
      assert bs == bs[..n] + bs[n..];
      assert Exact(bs[..n]);
    }
  }

  lemma RecordsCons(r: seq<Byte>, rest: seq<Byte>)
    requires Exact(r)
    ensures RecordsOf(r + rest) == [r] + RecordsOf(rest) && Leftover(r + rest) == Leftover(rest)
  {
    var bs := r + rest;
    assert bs[3] == r[3] && bs[4] == r[4];
    assert bs[..|r|] == r && bs[|r|..] == rest;
  }

  /** Exact records in front of anything are the first ones found. */
  lemma {:induction false} RecordsOfRecords(rs: seq<seq<Byte>>, rest: seq<Byte>)
    requires forall k :: 0 <= k < |rs| ==> Exact(rs[k])
    ensures RecordsOf(Flat(rs) + rest) == rs + RecordsOf(rest)
    ensures Leftover(Flat(rs) + rest) == Leftover(rest)
  {
    if |rs| == 0 {
      assert Flat(rs) + rest == rest;
    } else {
      var front, last := rs[..|rs| - 1], rs[|rs| - 1];
      Assoc(Flat(front), last, rest);
      RecordsOfRecords(front, last + rest);
      RecordsCons(last, rest);
      assert rs == front + [last];
      Assoc(front, [last], RecordsOf(rest));
    }
  }

  /** Cutting the stream anywhere and going on from the leftover finds the same records. */
  lemma RecordsAppend(a: seq<Byte>, b: seq<Byte>)
    ensures RecordsOf(a + b) == RecordsOf(a) + RecordsOf(Leftover(a) + b)
    ensures Leftover(a + b) == Leftover(Leftover(a) + b)
  {
    RecordsConserve(a);
    RecordsOfRecords(RecordsOf(a), Leftover(a) + b);
    assert a + b == Flat(RecordsOf(a)) + (Leftover(a) + b);
  }

  // ── RecordBuf: records are taken by moving a cursor ────────────────────────

  class RecordBuf {
    var buf: seq<Byte>
    var pos: nat

    ghost var pushed: seq<Byte>          // every byte ever pushed
    ghost var taken: seq<seq<Byte>>      // every record ever taken
    ghost var moved: nat                 // bytes shifted to the front by compact, in total
    ghost var mark: nat                  // how many bytes at the front of `buf` have been shifted before
    ghost var peak: nat                  // the longest `buf` has ever been

    ghost predicate Valid()
      reads this
    {
      && pos <= |buf|
      && pushed == Flat(taken) + buf[pos..]
      && (forall k :: 0 <= k < |taken| ==> Exact(taken[k]))
      && mark <= |buf|
      && |buf| <= |pushed|
      && |buf| <= peak
      && moved <= |pushed| - |buf| + mark
      // amortised cost: no byte is shifted twice, because the shifted ones belong to the first record
      && (pos >= mark || (pos == 0 && (mark < HEADER || mark < RecordLen(buf))))
    }

    ghost function Pending(): seq<Byte>
      requires Valid()
      reads this
    {
      buf[pos..]
    }

    constructor ()
      ensures Valid() && pushed == [] && taken == [] && moved == 0 && buf == [] && peak == 0
    {
      buf, pos := [], 0;
      pushed, taken, moved, mark, peak := [], [], 0, 0, 0;
    }

    method Push(chunk: seq<Byte>)
      requires Valid()
      modifies this
      ensures Valid() && pushed == old(pushed) + chunk && taken == old(taken) && moved == old(moved)
      ensures Pending() == old(Pending()) + chunk
      ensures |buf| <= old(|buf|) + |chunk|
      ensures old(Pending()) == [] ==> buf == chunk && pos == 0
      ensures old(Pending()) != [] ==> buf == old(buf) + chunk && pos == old(pos)
      ensures peak == if |buf| > old(peak) then |buf| else old(peak)
    {
      if pos == |buf| {
        buf, pos := [], 0;
        mark := 0;
      }
      buf := buf + chunk;
      pushed := pushed + chunk;
      peak := if |buf| > peak then |buf| else peak;
    }

    method TakeRecord() returns (r: Option<seq<Byte>>)
      requires Valid()
      modifies this
      ensures Valid() && pushed == old(pushed) && peak == old(peak)
      ensures if Whole(old(Pending()))
              then var n := RecordLen(old(Pending()));
                   && r == Some(old(Pending())[..n]) && Pending() == old(Pending())[n..]
                   && taken == old(taken) + [r.value] && moved == old(moved) && buf == old(buf)
              else && r == None && Pending() == old(Pending()) && taken == old(taken)
                   && buf == Pending() && |buf| < HEADER + 65535
                   && moved == old(moved) + (if old(pos) > 0 then |buf| else 0)
    {
      var avail := |buf| - pos;
      if avail < HEADER {
        Compact();
        return None;
      }
      var payloadLen := FromBe16(buf[pos + 3], buf[pos + 4]);
      var total := HEADER + payloadLen;
      assert total == RecordLen(buf[pos..]);
      if avail < total {
        Compact();
        return None;
      }
      var start := pos;
      pos := pos + total;
      r := Some(buf[start..start + total]);
      assert buf[start..] == buf[start..start + total] + buf[pos..];
      assert buf[start..][..total] == buf[start..start + total];
      FlatSnoc(taken, r.value);
      assert Exact(r.value);
      taken := taken + [r.value];
    }

    method Compact()
      requires Valid() && !Whole(Pending())
      modifies this
      ensures Valid() && pushed == old(pushed) && taken == old(taken) && peak == old(peak)
      ensures pos == 0 && buf == old(Pending())
      ensures moved == old(moved) + (if old(pos) > 0 then |buf| else 0)
    {
      if pos > 0 {
        moved := moved + (|buf| - pos);
        mark := |buf| - pos;
        buf := buf[pos..];
        pos := 0;
      }
    }
  }

  /** The reader's use of the buffer: drain every complete record, then push the next chunk. However the
      bytes are cut into chunks the records are those of the whole stream; the leftover stays under a
      record, so the buffer never outgrows one record and one chunk. */
  method DrainThenRefill(chunks: seq<seq<Byte>>)
    returns (records: seq<seq<Byte>>, leftover: seq<Byte>, ghost moved: nat, ghost peak: nat)
    requires forall k :: 0 <= k < |chunks| ==> |chunks[k]| <= 16384
    ensures records == RecordsOf(Flat(chunks)) && leftover == Leftover(Flat(chunks))
    ensures |leftover| < 65540
    ensures moved <= |Flat(chunks)| && peak <= 81923
  {
    var rb := new RecordBuf();
    records := [];
    for i := 0 to |chunks|
      invariant rb.Valid() && fresh(rb)
      invariant rb.pushed == Flat(chunks[..i]) && rb.taken == records
      invariant !Whole(rb.Pending()) && |rb.buf| < HEADER + 65535 && rb.peak <= 65539 + READ_CHUNK
    {
      rb.Push(chunks[i]);
      assert chunks[..i + 1] == chunks[..i] + [chunks[i]];
      FlatSnoc(chunks[..i], chunks[i]);
      var r := rb.TakeRecord();
      while r.Some?
        invariant rb.Valid() && rb.pushed == Flat(chunks[..i + 1])
        invariant rb.peak <= 65539 + READ_CHUNK
        invariant if r.Some? then rb.taken == records + [r.value] else rb.taken == records && !Whole(rb.Pending())
        invariant r.None? ==> |rb.buf| < HEADER + 65535
        decreases |rb.buf| - rb.pos, r.Some?
      {
        records := records + [r.value];
        r := rb.TakeRecord();
      }
    }
    assert chunks[..|chunks|] == chunks;
    RecordsOfRecords(rb.taken, rb.Pending());
    leftover := rb.buf[rb.pos..];
    moved, peak := rb.moved, rb.peak;
  }

  // ── RecordReader: records are drained from the front ───────────────────────

  datatype Arrival = Chunk(bytes: seq<Byte>) | Failed

  datatype IoError = UnexpectedEof | ReadFailed

  /** A socket: the reads still to come, ending in EOF. */
  class Socket {
    var incoming: seq<Arrival>

    constructor (incoming: seq<Arrival>)
      ensures this.incoming == incoming
    {
      this.incoming := incoming;
    }

    /** One read; an empty chunk is EOF. */
    method Read() returns (r: Result<seq<Byte>, IoError>)
      modifies this
      ensures old(incoming) == [] ==> r == Ok([]) && incoming == []
      ensures old(incoming) != [] ==> incoming == old(incoming)[1..]
      ensures old(incoming) != [] ==>
                r == if old(incoming)[0].Chunk? then Ok(old(incoming)[0].bytes) else Err(ReadFailed)
    {
      if incoming == [] {
        return Ok([]);
      }
      r := if incoming[0].Chunk? then Ok(incoming[0].bytes) else Err(ReadFailed);
      incoming := incoming[1..];
    }
  }

  /** The bytes that arrive before the first failed or empty read. */
  function Readable(incoming: seq<Arrival>): seq<Byte> {
    if incoming == [] || incoming[0].Failed? || incoming[0].bytes == [] then []
    else incoming[0].bytes + Readable(incoming[1..])
  }

  /** How the stream ends. */
  function EndOf(incoming: seq<Arrival>): IoError {
    if incoming != [] && incoming[0].Failed? then ReadFailed
    else if incoming == [] || incoming[0].bytes == [] then UnexpectedEof
    else EndOf(incoming[1..])
  }

  class RecordReader {
    var buf: seq<Byte>

    constructor ()
      ensures buf == []
    {
      buf := [];
    }

    /** The byte stream this reader still stands before. */
    ghost function Stream(io: Socket): seq<Byte>
      reads this, io
    {
      buf + Readable(io.incoming)
    }

    /** One record, exactly the next one of the stream; an error only when no whole record arrives. */
    method ReadRecord(io: Socket) returns (r: Result<seq<Byte>, IoError>)
      modifies this, io
      ensures r.Ok? <==> Whole(old(Stream(io)))
      ensures r.Ok? ==> var n := RecordLen(old(Stream(io)));
                        r.value == old(Stream(io))[..n] && Stream(io) == old(Stream(io))[n..]
      ensures r.Err? ==> buf == old(Stream(io)) && r.error == EndOf(old(io.incoming))
      ensures |io.incoming| <= old(|io.incoming|)
    {
      ghost var all := Stream(io);
      while true
        invariant Stream(io) == all && |io.incoming| <= old(|io.incoming|)
        invariant EndOf(io.incoming) == EndOf(old(io.incoming))
        decreases |io.incoming|
      {
        if |buf| >= HEADER {
          var total := HEADER + FromBe16(buf[3], buf[4]);
          assert total == RecordLen(buf) == RecordLen(all);
          if |buf| >= total {
            r := Ok(buf[..total]);
            assert all == buf[..total] + (buf[total..] + Readable(io.incoming));
            buf := buf[total..];
            return;
          }
        }
        assert !Whole(buf);
        ghost var before := io.incoming;
        var chunk := io.Read();
        if chunk.Err? {
          assert Readable(before) == [];
          return Err(chunk.error);
        }
        if chunk.value == [] {
          assert Readable(before) == [];
          return Err(UnexpectedEof);
        }
        assert buf + Readable(before) == (buf + chunk.value) + Readable(io.incoming);
        buf := buf + chunk.value;
      }
    }

    /** Reading until the first error yields the same records as the cursor buffer. */
    method ReadAll(io: Socket) returns (records: seq<seq<Byte>>)
      requires buf == []
      modifies this, io
      ensures records == RecordsOf(Readable(old(io.incoming)))
      ensures buf == Leftover(Readable(old(io.incoming)))
    {
      ghost var all := Stream(io);
      assert all == Readable(io.incoming);
      records := [];
      while true
        invariant records + RecordsOf(Stream(io)) == RecordsOf(all) && Leftover(Stream(io)) == Leftover(all)
        decreases |Stream(io)|
      {
        ghost var now := Stream(io);
        var r := ReadRecord(io);
        if r.Err? {
          assert RecordsOf(now) == [];
          return;
        }
        assert RecordsOf(now) == [r.value] + RecordsOf(Stream(io));
        records := records + [r.value];
      }
    }
  }
}
