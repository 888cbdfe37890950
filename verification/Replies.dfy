// How many replies there are: every PONG and every echoed CLOSE against the frame it answers, and the PONG
// counter against the PINGs the peer has read.
module Replies {
  import opened Bytes
  import opened Mux
  import opened History
  import opened Endpoint
  import opened Bookkeeping
  import opened Tunnel

  /** The nonces of the PINGs, and of the PONGs, in order. */
  function PingNonces(fs: seq<Frame>): seq<Nonce> {
    if |fs| == 0 then []
    else PingNonces(fs[..|fs| - 1]) + (if fs[|fs| - 1].Ping? then [fs[|fs| - 1].nonce] else [])
  }

  function PongNonces(fs: seq<Frame>): seq<Nonce> {
    if |fs| == 0 then []
    else PongNonces(fs[..|fs| - 1]) + (if fs[|fs| - 1].Pong? then [fs[|fs| - 1].nonce] else [])
  }

  function Pings(fs: seq<Frame>): nat {
    |PingNonces(fs)|
  }

  function Pongs(fs: seq<Frame>): nat {
    |PongNonces(fs)|
  }

  function Closes(fs: seq<Frame>, i: Id): nat {
    if |fs| == 0 then 0 else Closes(fs[..|fs| - 1], i) + (if fs[|fs| - 1] == Mux.Close(i) then 1 else 0)
  }

  lemma CountsSnoc(fs: seq<Frame>, f: Frame, i: Id)
    ensures PingNonces(fs + [f]) == PingNonces(fs) + if f.Ping? then [f.nonce] else []
    ensures PongNonces(fs + [f]) == PongNonces(fs) + if f.Pong? then [f.nonce] else []
    ensures Closes(fs + [f], i) == Closes(fs, i) + if f == Mux.Close(i) then 1 else 0
    ensures |DataOf(fs + [f], i)| == |DataOf(fs, i)| + if f.Data? && f.stream == i then 1 else 0
  {
    assert (fs + [f])[..|fs|] == fs;
  }

  // ── the laws ───────────────────────────────────────────────────────────────

  /** The reader has a chunk for `i` in hand that it has neither delivered nor answered yet. */
  function ChunkDue(h: Hand, i: Id): nat {
    if (h.Looking? || h.Delivering? || h.Stalled? || h.Echoing?) && h.id == i then 1 else 0
  }

  function PongDue(h: Hand): seq<Nonce> {
    if h.Ponging? then [h.nonce] else []
  }

  /** The stream's own CLOSE, of its uplink or of its refused dial. */
  function OwnClose(streams: map<Id, Stream>, i: Id): nat {
    if i in streams && (streams[i].up == UpDone || streams[i].task == Refused) then 1 else 0
  }

  /** The chunks the stream's channel accepted. */
  function Kept(streams: map<Id, Stream>, i: Id): nat {
    if i in streams then |streams[i].acc| else 0
  }

  /** Both sides are equal until the writer is gone; from then on replies get lost. */
  predicate Balanced(sum: nat, total: nat, gone: bool) {
    if gone then sum <= total else sum == total
  }

  /** The PINGs that were read are answered in order, each by one PONG with its own nonce. */
  predicate PongLaw(enq: seq<Frame>, seen: seq<Frame>, hand: Hand, gone: bool) {
    if gone then PongNonces(enq) <= PingNonces(seen) else PongNonces(enq) + PongDue(hand) == PingNonces(seen)
  }

  /** Of the DATA of `i` that were read each was either accepted by the channel or answered by one CLOSE; the
      only other CLOSE is the stream's own. So a CLOSE is never answered. */
  predicate CloseLaw(enq: seq<Frame>, seen: seq<Frame>, hand: Hand, streams: map<Id, Stream>, gone: bool, i: Id) {
    Balanced(Closes(enq, i) + ChunkDue(hand, i) + Kept(streams, i), |DataOf(seen, i)| + OwnClose(streams, i), gone)
  }

  /** Every PONG that was read is counted once. */
  predicate CounterLaw(pongs: nat, seen: seq<Frame>, hand: Hand) {
    pongs + (if hand.Counting? then 1 else 0) == Pongs(seen)
  }

  predicate Replies(e: Endpoint, i: Id) {
    && PongLaw(e.enq, e.seen, e.hand, WriterGone(e))
    && CloseLaw(e.enq, e.seen, e.hand, e.streams, WriterGone(e), i)
    && CounterLaw(e.pongs, e.seen, e.hand)
  }

  lemma SentCounts(e: Endpoint, f: Frame, i: Id)
    ensures PongNonces(Sent(e, f)) == PongNonces(e.enq) + if f.Pong? && !WriterGone(e) then [f.nonce] else []
    ensures Closes(Sent(e, f), i) == Closes(e.enq, i) + if f == Mux.Close(i) && !WriterGone(e) then 1 else 0
  {
    CountsSnoc(e.enq, f, i);
  }

  // ── every step keeps them ──────────────────────────────────────────────────

  lemma TaskCounts(e: Endpoint, k: TaskStep, i: Id)
    requires Phases(e) && TaskEnabled(e, k) && !k.Alloc? && (k.Register? ==> k.i !in e.streams)
    ensures OwnClose(DoTask(e, k).streams, i) == OwnClose(e.streams, i) + if k.Refuse? && k.i == i then 1 else 0
    ensures Kept(DoTask(e, k).streams, i) == Kept(e.streams, i)
  {
    if k.i in e.streams {
      assert PhaseOk(e.role, e.streams[k.i]);
    }
  }

  lemma TaskEnqCounts(e: Endpoint, k: TaskStep, i: Id)
    ensures PongNonces(TaskEnq(e, k)) == PongNonces(e.enq)
    ensures Closes(TaskEnq(e, k), i) == Closes(e.enq, i) + if k.Refuse? && k.i == i && !WriterGone(e) then 1 else 0
  {
    if k.SendOpen? { SentCounts(e, Open(k.i), i); }
    if k.Refuse? { SentCounts(e, Mux.Close(k.i), i); }
  }

  lemma RepliesTask(e: Endpoint, k: TaskStep, i: Id)
    requires Phases(e) && Replies(e, i) && TaskEnabled(e, k)
    requires k.Register? ==> k.i !in e.streams
    ensures Replies(DoTask(e, k), i)
  {
    if !k.Alloc? {
      TaskCounts(e, k, i);
      TaskEnqCounts(e, k, i);
    }
  }

  lemma PumpCounts(e: Endpoint, p: PumpStep, i: Id)
    requires Phases(e) && PumpEnabled(e, p)
    ensures OwnClose(DoPump(e, p).streams, i) == OwnClose(e.streams, i) + if p.UpClose? && p.i == i then 1 else 0
    ensures Kept(DoPump(e, p).streams, i) == Kept(e.streams, i)
  {
    assert PhaseOk(e.role, e.streams[p.i]);
  }

  lemma RepliesPump(e: Endpoint, p: PumpStep, i: Id)
    requires Phases(e) && Replies(e, i) && PumpEnabled(e, p)
    ensures Replies(DoPump(e, p), i)
  {
    PumpCounts(e, p, i);
    if p.UpClose? { SentCounts(e, Mux.Close(p.i), i); }
    if p.UpSend? { SentCounts(e, Data(p.i, NextChunk(e.streams[p.i].up.rest)), i); }
  }

  lemma RepliesRead(e: Endpoint, f: Frame, i: Id)
    requires Replies(e, i) && e.hand == Idle
    ensures PongLaw(e.enq, e.seen + [f], HandFor(f), WriterGone(e))
    ensures CloseLaw(e.enq, e.seen + [f], HandFor(f), e.streams, WriterGone(e), i)
    ensures CounterLaw(e.pongs, e.seen + [f], HandFor(f))
  {
    CountsSnoc(e.seen, f, i);
  }

  lemma HandOwnClose(e: Endpoint, i: Id)
    requires Phases(e) && HandEnabled(e)
    ensures OwnClose(HandStreams(e), i) == OwnClose(e.streams, i)
  {
  }

  /** The chunk in hand is delivered, or goes on to be answered. */
  lemma ChunkGoesOn(e: Endpoint, i: Id)
    requires Phases(e) && HandEnabled(e) && !e.hand.Echoing?
    ensures ChunkDue(NextHand(e), i) + Kept(HandStreams(e), i) == ChunkDue(e.hand, i) + Kept(e.streams, i)
  {
  }

  /** Only an echo and a PONG enqueue anything: a CLOSE, a PONG or an OPEN is never answered. */
  lemma OnlyReplies(e: Endpoint)
    requires HandEnabled(e) && !e.hand.Echoing? && !e.hand.Ponging?
    ensures HandEnq(e) == e.enq && !NextHand(e).Ponging?
  {
  }

  /** What is in hand for `i` becomes a frame, or is lost with the writer. */
  lemma ReplySent(e: Endpoint, f: Frame, i: Id)
    requires Replies(e, i) && !e.hand.Counting? && !f.Data?
    requires PongDue(e.hand) == (if f.Pong? then [f.nonce] else [])
    requires ChunkDue(e.hand, i) == (if f == Mux.Close(i) then 1 else 0)
    ensures PongLaw(Sent(e, f), e.seen, Idle, WriterGone(e))
    ensures CloseLaw(Sent(e, f), e.seen, Idle, e.streams, WriterGone(e), i)
    ensures CounterLaw(e.pongs, e.seen, Idle)
  {
    SentCounts(e, f, i);
  }

  lemma AfterReply(e: Endpoint)
    requires HandEnabled(e) && (e.hand.Echoing? || e.hand.Ponging?)
    ensures var f := if e.hand.Echoing? then Mux.Close(e.hand.id) else Pong(e.hand.nonce);
            DoHand(e) == e.(hand := Idle, enq := Sent(e, f))
  {
  }

  lemma RepliesReply(e: Endpoint, i: Id)
    requires Replies(e, i) && HandEnabled(e) && (e.hand.Echoing? || e.hand.Ponging?)
    ensures Replies(DoHand(e), i)
  {
    AfterReply(e);
    ReplySent(e, if e.hand.Echoing? then Mux.Close(e.hand.id) else Pong(e.hand.nonce), i);
  }

  lemma RepliesHand(e: Endpoint, i: Id)
    requires Phases(e) && Replies(e, i) && HandEnabled(e) && !e.hand.Echoing? && !e.hand.Ponging?
    ensures Replies(DoHand(e), i)
  {
    HandOwnClose(e, i);
    ChunkGoesOn(e, i);
    OnlyReplies(e);
  }

  lemma RepliesReader(e: Endpoint, r: ReaderStep, i: Id)
    requires Phases(e) && Replies(e, i) && ReaderEnabled(e, r)
    ensures Replies(DoReader(e, r), i)
  {
    if r.Read? {
      RepliesRead(e, r.f, i);
    } else if r.Handle? {
      if e.hand.Echoing? || e.hand.Ponging? {
        RepliesReply(e, i);
      } else {
        RepliesHand(e, i);
      }
    }
  }

  lemma RepliesKill(e: Endpoint, s: KillStep, i: Id)
    requires Replies(e, i) && KillEnabled(e, s)
    ensures Replies(DoKill(e, s), i)
  {
    assert WriterGone(e) ==> WriterGone(DoKill(e, s));
  }

  lemma RepliesWire(e: Endpoint, w: WireStep, i: Id)
    requires Replies(e, i) && WireEnabled(e, w)
    ensures Replies(DoWire(e, w), i)
  {
    if w.SendPing? { SentCounts(e, Ping(w.nonce), i); }
  }

  lemma RepliesStep(e: Endpoint, a: Step, i: Id)
    requires Phases(e) && Replies(e, i) && Enabled(e, a) && Fresh(e, a)
    ensures Replies(Do(e, a), i)
  {
    match a
    case Task(k) => RepliesTask(e, k, i);
    case Pump(p) => RepliesPump(e, p, i);
    case Reader(r) => RepliesReader(e, r, i);
    case Wire(w) => RepliesWire(e, w, i);
    case Kill(s) => RepliesKill(e, s, i);
  }

  lemma RepliesNext(t: Tunnel, x: TunnelStep, i: Id)
    requires Inv(t) && MayHappen(t, x) && Replies(t.c, i) && Replies(t.s, i)
    ensures Replies(Next(t, x).c, i) && Replies(Next(t, x).s, i)
  {
    ReadsAreOk(t, x);
    match x
    case AtClient(a) =>
      StepIsFresh(t.c, a);
      RepliesStep(t.c, a, i);
    case AtServer(a) =>
      StepIsFresh(t.s, a);
      RepliesStep(t.s, a, i);
    case _ =>
  }

  /** At both ends, after every run. */
  lemma {:induction false} RepliesAreCounted(run: seq<TunnelStep>, i: Id)
    requires Legal(run)
    ensures Replies(After(run).c, i) && Replies(After(run).s, i)
  {
    if |run| > 0 {
      var front := run[..|run| - 1];
      RepliesAreCounted(front, i);
      Always(front);
      RepliesNext(After(front), run[|run| - 1], i);
    }
  }

  // ── across the wire ────────────────────────────────────────────────────────

  lemma {:induction false} PongsOfSubsequence(a: seq<Frame>, b: seq<Frame>)
    requires IsSubsequence(a, b)
    ensures Pongs(a) <= Pongs(b)
    decreases |b|
  {
    if |a| > 0 && |b| > 0 {
      if IsSubsequence(a, b[..|b| - 1]) {
        PongsOfSubsequence(a, b[..|b| - 1]);
      } else {
        PongsOfSubsequence(a[..|a| - 1], b[..|b| - 1]);
      }
    }
  }

  lemma {:induction false} PongsOfPrefix(fs: seq<Frame>, n: nat)
    requires n <= |fs|
    ensures Pongs(fs[..n]) <= Pongs(fs)
  {
    if n == |fs| {
      assert fs[..n] == fs;
    } else {
      assert fs[..|fs| - 1][..n] == fs[..n];
      PongsOfPrefix(fs[..|fs| - 1], n);
    }
  }

  lemma AnswersAcross(pinger: Endpoint, peer: Endpoint, pos: nat, lossless: bool)
    requires Replies(pinger, 0) && Replies(peer, 0) && WireInv(peer, pinger, pos, lossless)
    ensures pinger.pongs <= Pings(peer.seen)
  {
    PongsOfSubsequence(pinger.seen, peer.enq[..pos]);
    PongsOfPrefix(peer.enq, pos);
  }

  /** No end ever counts more PONGs than its peer has read PINGs. */
  lemma CountedAnswers(run: seq<TunnelStep>)
    requires Legal(run)
    ensures After(run).s.pongs <= Pings(After(run).c.seen)
    ensures After(run).c.pongs <= Pings(After(run).s.seen)
  {
    Always(run);
    RepliesAreCounted(run, 0);
    var t := After(run);
    AnswersAcross(t.s, t.c, t.upPos, t.upLossless);
    AnswersAcross(t.c, t.s, t.downPos, t.downLossless);
  }
}
