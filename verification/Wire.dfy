// The byte-level pipeline: chunking in CarrierHandle::send, encoding and sealing in writer_loop, the wire as
// bytes, and the reader on the other side. The AEAD codec of qeli_core is a parameter with a contract.
module Wire {
  import opened Bytes
  import opened Mux
  import opened History
  import opened Records
  import opened Endpoint
  import opened Integrity
  import opened ReaderLoop
  import Tunnel

  const MAX_RECORD := 16672

  // ── CarrierHandle::send ────────────────────────────────────────────────────

  /** Every chunk but the last is full, none is empty, and together they are the data. */
  method SendChunks(id: Id, data: seq<Byte>) returns (frames: seq<Frame>)
    ensures Chunked(id, frames, data)
    ensures |frames| > 0 ==> AllFull(frames[..|frames| - 1])
  {
    frames := [];
    var rest := data;
    while rest != []
      invariant ChunkedSoFar(id, frames, data, rest)
      decreases |rest|
    {
      ChunkStep(id, frames, data, rest);
      frames := frames + [Data(id, NextChunk(rest))];
      rest := rest[|NextChunk(rest)|..];
    }
    assert data[..|data|] == data;
  }

  /** `rest` is what is left of the data behind the chunks, all of them full while anything is left. */
  predicate ChunkedSoFar(id: Id, frames: seq<Frame>, data: seq<Byte>, rest: seq<Byte>) {
    && |rest| <= |data| && rest == data[|data| - |rest|..]
    && Chunked(id, frames, data[..|data| - |rest|])
    && (if rest != [] then AllFull(frames) else |frames| > 0 ==> AllFull(frames[..|frames| - 1]))
  }

  lemma ChunkStep(id: Id, frames: seq<Frame>, data: seq<Byte>, rest: seq<Byte>)
    requires rest != [] && ChunkedSoFar(id, frames, data, rest)
    ensures var chunk := NextChunk(rest);
            chunk != [] && ChunkedSoFar(id, frames + [Data(id, chunk)], data, rest[|chunk|..])
  {
    var chunk := NextChunk(rest);
    ChunkedSnoc(id, frames, data[..|data| - |rest|], chunk);
    NextSlice(data, rest, |chunk|);
    AllFullSnoc(frames, Data(id, chunk));
  }

  lemma NextSlice(data: seq<Byte>, rest: seq<Byte>, n: nat)
    requires |rest| <= |data| && rest == data[|data| - |rest|..] && n <= |rest|
    ensures data[..|data| - |rest|] + rest[..n] == data[..|data| - |rest[n..]|]
    ensures rest[n..] == data[|data| - |rest[n..]|..]
  {
  }

  /** DATA frames of one stream, none empty, whose payloads concatenate to the data. */
  predicate Chunked(id: Id, frames: seq<Frame>, data: seq<Byte>) {
    && Flat(DataOf(frames, id)) == data
    && forall k :: 0 <= k < |frames| ==> frames[k].Data? && frames[k].stream == id && Sendable(frames[k])
  }

  predicate AllFull(frames: seq<Frame>) {
    forall k :: 0 <= k < |frames| ==> frames[k].Data? && |frames[k].payload| == 16384
  }

  lemma AllFullSnoc(frames: seq<Frame>, f: Frame)
    requires AllFull(frames)
    ensures AllFull((frames + [f])[..|frames + [f]| - 1])
    ensures f.Data? && |f.payload| == 16384 ==> AllFull(frames + [f])
  {
    assert (frames + [f])[..|frames|] == frames;
  }

  lemma ChunkedSnoc(id: Id, frames: seq<Frame>, data: seq<Byte>, chunk: seq<Byte>)
    requires Chunked(id, frames, data) && 0 < |chunk| <= MAX_DATA
    ensures Chunked(id, frames + [Data(id, chunk)], data + chunk)
  {
    DataOfSnoc(frames, Data(id, chunk));
    FlatSnoc(DataOf(frames, id), chunk);
  }

  // ── a codec pair in order ──────────────────────────────────────────────────

  /** The sealing half: its state and a record for each plaintext. */
  datatype Sealer<!E> = Sealer(encrypt: (E, seq<Byte>) -> (E, seq<Byte>))

  /** In step, the peer's decryption inverts the encryption and the two stay in step; a plaintext of at
      most one full DATA frame becomes one record within qeli's bound. */
  ghost predicate Inverts<E(!new), D(!new)>(x: Sealer<E>, c: Decoder<D>, inStep: (E, D) -> bool,
                                            e: E, d: D, plain: seq<Byte>)
  {
    inStep(e, d) && |plain| <= FRAME_HEADER + MAX_DATA ==>
      var (e', record) := x.encrypt(e, plain);
      && Exact(record) && |record| <= MAX_RECORD
      && c.decrypt(d, record).1 == Some(plain)
      && inStep(e', c.decrypt(d, record).0)
  }

  ghost predicate InverseCodecs<E(!new), D(!new)>(x: Sealer<E>, c: Decoder<D>, inStep: (E, D) -> bool) {
    forall e: E, d: D, plain: seq<Byte> :: Inverts(x, c, inStep, e, d, plain)
  }

  /** The contract can be met: a header in front of the plaintext will do. */
  lemma InverseCodecsExist()
    ensures exists x: Sealer<int>, c: Decoder<int>, inStep: (int, int) -> bool ::
              InverseCodecs(x, c, inStep) && inStep(0, 0)
  {
    var x := Sealer((e: int, plain: seq<Byte>) => (e + 1, Framed(plain)));
    var c := Decoder((d: int, record: seq<Byte>) =>
                       (d + 1, if |record| < HEADER then None else Some(record[HEADER..])));
    var inStep := (e: int, d: int) => e == d;
    forall e: int, d: int, plain: seq<Byte>
      ensures Inverts(x, c, inStep, e, d, plain)
    {
      if |plain| <= FRAME_HEADER + MAX_DATA {
        FramedIsExact(plain);
      }
    }
    assert InverseCodecs(x, c, inStep);
  }

  function Framed(plain: seq<Byte>): seq<Byte> {
    [0x17, 3, 3] + Be16(|plain| % U16_SIZE) + plain
  }

  lemma FramedIsExact(plain: seq<Byte>)
    requires |plain| <= FRAME_HEADER + MAX_DATA
    ensures Exact(Framed(plain)) && |Framed(plain)| <= MAX_RECORD && Framed(plain)[HEADER..] == plain
  {
    Be16RoundTrip(|plain|, 0, 0);
    assert Framed(plain)[3] == Be16(|plain|)[0] && Framed(plain)[4] == Be16(|plain|)[1];
  }

  /** The state of the sealer after a sequence of frames, and the records writer_loop put on the wire. */
  function SealerAfter<E>(x: Sealer<E>, e: E, frames: seq<Frame>): E {
    if |frames| == 0 then e
    else x.encrypt(SealerAfter(x, e, frames[..|frames| - 1]), Encode(frames[|frames| - 1])).0
  }

  function Sealed<E>(x: Sealer<E>, e: E, frames: seq<Frame>): (records: seq<seq<Byte>>)
    ensures |records| == |frames|
  {
    if |frames| == 0 then []
    else
      var front := frames[..|frames| - 1];
      Sealed(x, e, front) + [x.encrypt(SealerAfter(x, e, front), Encode(frames[|frames| - 1])).1]
  }

  /** `writer_loop` while nothing fails: one buffer for every plaintext, one record per frame, in order. */
  method WriteFrames<E>(x: Sealer<E>, e: E, frames: seq<Frame>) returns (e': E, wire: seq<Byte>)
    ensures e' == SealerAfter(x, e, frames) && wire == Flat(Sealed(x, e, frames))
  {
    var plain := new ByteVec();
    e', wire := e, [];
    assert frames[..0] == [];
    for k := 0 to |frames|
      invariant e' == SealerAfter(x, e, frames[..k]) && wire == Flat(Sealed(x, e, frames[..k]))
    {
      EncodeInto(frames[k], plain);
      var (next, record) := x.encrypt(e', plain.data);
      assert frames[..k + 1][..k] == frames[..k];
      FlatSnoc(Sealed(x, e, frames[..k]), record);
      e', wire := next, wire + record;
    }
    assert frames[..|frames|] == frames;
  }

  predicate AllSendable(frames: seq<Frame>) {
    forall k :: 0 <= k < |frames| ==> Sendable(frames[k])
  }

  /** Everything went through: no streak, every frame dispatched, both codecs in step. */
  ghost predicate Delivered<E, D>(inStep: (E, D) -> bool, e: E, p: Progress<D>, frames: seq<Frame>) {
    p == Progress(p.codec, 0, frames, None) && inStep(e, p.codec)
  }

  /** Each is one record within the bound the receiving codec enforces. */
  predicate AllWellFormed(records: seq<seq<Byte>>) {
    forall k :: 0 <= k < |records| ==> Exact(records[k]) && |records[k]| <= MAX_RECORD
  }

  lemma AllWellFormedSnoc(records: seq<seq<Byte>>, record: seq<Byte>)
    requires AllWellFormed(records) && Exact(record) && |record| <= MAX_RECORD
    ensures AllWellFormed(records + [record])
  {
  }

  lemma OneFrame<E(!new), D(!new)>(x: Sealer<E>, c: Decoder<D>, inStep: (E, D) -> bool, e: E, p: Progress<D>,
                                   front: seq<Frame>, f: Frame)
    requires InverseCodecs(x, c, inStep) && Delivered(inStep, e, p, front) && Sendable(f)
    ensures var (e', record) := x.encrypt(e, Encode(f));
            && Exact(record) && |record| <= MAX_RECORD
            && Delivered(inStep, e', OnRecord(c, p, record), front + [f])
  {
    EncodeLayout(f);
    DecodeEncode(f);
    assert Inverts(x, c, inStep, e, p.codec, Encode(f));
  }

  lemma SealedSnoc<E>(x: Sealer<E>, e: E, front: seq<Frame>, f: Frame)
    ensures var (e', record) := x.encrypt(SealerAfter(x, e, front), Encode(f));
            SealerAfter(x, e, front + [f]) == e' && Sealed(x, e, front + [f]) == Sealed(x, e, front) + [record]
  {
    assert (front + [f])[..|front|] == front;
  }

  /** The reader recovers exactly the frames that were sealed, record by record. */
  lemma {:induction false} ReadsWhatWasSealed<E(!new), D(!new)>(x: Sealer<E>, c: Decoder<D>, inStep: (E, D) -> bool,
                                                                e: E, d: D, frames: seq<Frame>)
    requires InverseCodecs(x, c, inStep) && inStep(e, d) && AllSendable(frames)
    ensures AllWellFormed(Sealed(x, e, frames))
    ensures Delivered(inStep, SealerAfter(x, e, frames), OnRecords(c, AtStart(d), Sealed(x, e, frames)), frames)
  {
    if |frames| > 0 {
      var front, f := frames[..|frames| - 1], frames[|frames| - 1];
      ReadsWhatWasSealed(x, c, inStep, e, d, front);
      var e1, records := SealerAfter(x, e, front), Sealed(x, e, front);
      OneFrame(x, c, inStep, e1, OnRecords(c, AtStart(d), records), front, f);
      var record := x.encrypt(e1, Encode(f)).1;
      assert frames == front + [f];
      SealedSnoc(x, e, front, f);
      OnRecordsSnoc(c, AtStart(d), records, record);
      AllWellFormedSnoc(records, record);
    }
  }

  /** The first `n` records are what sealing the first `n` frames gives. */
  lemma {:induction false} SealPrefix<E>(x: Sealer<E>, e: E, frames: seq<Frame>, n: nat)
    requires n <= |frames|
    ensures Sealed(x, e, frames[..n]) == Sealed(x, e, frames)[..n]
  {
    if n == |frames| {
      assert frames[..n] == frames;
    } else {
      var front := frames[..|frames| - 1];
      SealPrefix(x, e, front, n);
      assert front[..n] == frames[..n];
    }
  }

  /** A prefix of a concatenation of records holds some whole number of them, and part of the next. */
  lemma {:induction false} PrefixOfRecords(bytes: seq<Byte>, records: seq<seq<Byte>>) returns (n: nat)
    requires bytes <= Flat(records) && AllWellFormed(records)
    ensures n <= |records| && RecordsOf(bytes) == records[..n]
    ensures bytes == Flat(records) ==> n == |records|
  {
    if |records| == 0 {
      n := 0;
    } else {
      var front, last := records[..|records| - 1], records[|records| - 1];
      if |bytes| <= |Flat(front)| && bytes != Flat(records) {
        n := PrefixOfRecords(bytes, front);
        assert front[..n] == records[..n];
      } else {
        var rest := bytes[|Flat(front)|..];
        assert bytes == Flat(front) + rest && rest <= last;
        RecordsOfRecords(front, rest);
        if rest == last {
          n := |records|;
          RecordsCons(last, []);
          assert last + [] == last && RecordsOf([]) == [];
          assert records[..n] == front + [last];
        } else {
          n := |records| - 1;
          PartialRecord(rest, last);
        }
      }
    }
  }

  lemma PartialRecord(part: seq<Byte>, record: seq<Byte>)
    requires Exact(record) && part <= record && part != record
    ensures RecordsOf(part) == []
  {
    if |part| >= HEADER {
      assert part[3] == record[3] && part[4] == record[4];
    }
  }

  /** Any prefix of the sealed bytes holds the records of some first frames. */
  lemma ArrivedFrames<E>(x: Sealer<E>, e: E, frames: seq<Frame>, bytes: seq<Byte>) returns (n: nat)
    requires AllWellFormed(Sealed(x, e, frames)) && bytes <= Flat(Sealed(x, e, frames))
    ensures n <= |frames| && RecordsOf(bytes) == Sealed(x, e, frames[..n])
    ensures bytes == Flat(Sealed(x, e, frames)) ==> frames[..n] == frames
  {
    n := PrefixOfRecords(bytes, Sealed(x, e, frames));
    SealPrefix(x, e, frames, n);
  }

  /** The wire pipeline: whatever prefix of the sealed bytes has arrived, and however it was cut into socket
      reads, the reader has dispatched a prefix of the frames, in order, with no bad record; with all the
      bytes it has dispatched all the frames. */
  lemma PipelineRoundTrip<E(!new), D(!new)>(x: Sealer<E>, c: Decoder<D>, inStep: (E, D) -> bool,
                                            e: E, d: D, frames: seq<Frame>, chunks: seq<seq<Byte>>)
    requires InverseCodecs(x, c, inStep) && inStep(e, d) && AllSendable(frames)
    requires Flat(chunks) <= Flat(Sealed(x, e, frames))
    ensures var p := OnRecords(c, AtStart(d), RecordsOf(Flat(chunks)));
            && p.fatal.None? && p.streak == 0 && p.out <= frames
            && (Flat(chunks) == Flat(Sealed(x, e, frames)) ==> p.out == frames)
  {
    ReadsWhatWasSealed(x, c, inStep, e, d, frames);
    var n := ArrivedFrames(x, e, frames, Flat(chunks));
    ReadsWhatWasSealed(x, c, inStep, e, d, frames[..n]);
  }

  /** The frame wire of the tunnel model is what the byte wire gives: at any point of any run, the bytes of
      the records the client has written, cut into reads in any way, are read as exactly those frames. */
  lemma BytesCarryTheFrames<E(!new), D(!new)>(x: Sealer<E>, c: Decoder<D>, inStep: (E, D) -> bool, e: E, d: D,
                                              run: seq<Tunnel.TunnelStep>, chunks: seq<seq<Byte>>, up: bool)
    requires InverseCodecs(x, c, inStep) && inStep(e, d) && Tunnel.Legal(run)
    requires var t := Tunnel.After(run);
             var end := if up then t.c else t.s;
             end.sent <= |end.enq| && Flat(chunks) == Flat(Sealed(x, e, end.enq[..end.sent]))
    ensures var t := Tunnel.After(run);
            var end := if up then t.c else t.s;
            OnRecords(c, AtStart(d), RecordsOf(Flat(chunks))).out == end.enq[..end.sent]
  {
    Tunnel.Always(run);
    var t := Tunnel.After(run);
    var end := if up then t.c else t.s;
    PipelineRoundTrip(x, c, inStep, e, d, end.enq[..end.sent], chunks);
  }
}
