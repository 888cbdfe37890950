// What the tunnel promises, after every run of both ends.
module Guarantees {
  import opened Bytes
  import opened Mux
  import opened History
  import opened Endpoint
  import opened Bookkeeping
  import opened Integrity
  import opened Death
  import opened Closing
  import opened Tunnel
  import opened Futures

  /** Bytes read from, written to, and chunks accepted for a stream's local socket at one end. */
  function Read(e: Endpoint, i: Id): seq<Byte> {
    if i in e.streams then e.streams[i].read else []
  }

  function Written(e: Endpoint, i: Id): seq<Byte> {
    if i in e.streams then e.streams[i].written else []
  }

  function Accepted(e: Endpoint, i: Id): seq<seq<Byte>> {
    if i in e.streams then e.streams[i].acc else []
  }

  predicate Finned(e: Endpoint, i: Id) {
    i in e.streams && e.streams[i].fin
  }

  /** The uplink saw the end of its local socket and sent its CLOSE. */
  predicate Finished(e: Endpoint, i: Id) {
    i in e.streams && e.streams[i].up == UpDone && !e.streams[i].cut
  }

  // ── integrity and isolation ────────────────────────────────────────────────

  lemma SentIsRead(e: Endpoint, i: Id)
    requires StreamInv(e)
    ensures Flat(DataOf(e.enq, i)) <= Read(e, i)
  {
    if i in e.streams {
      assert UpOk(e.streams[i], DataOf(e.enq, i));
    } else {
      assert DataOf(e.enq, i) == [];
    }
  }

  lemma WrittenWasSeen(e: Endpoint, i: Id)
    requires StreamInv(e)
    ensures Accepted(e, i) <= DataOf(e.seen, i)
    ensures Written(e, i) <= Flat(Accepted(e, i))
  {
    if i in e.streams {
      assert AccOk(e.streams[i], DataOf(e.seen, i), i in e.reg, e.hand, i);
      assert DownOk(e.streams[i]);
    }
  }

  /** One direction on a wire that lost nothing: what comes out is a prefix of what went in. */
  lemma PrefixAcross(sender: Endpoint, reader: Endpoint, pos: nat, i: Id)
    requires StreamInv(sender) && StreamInv(reader) && WireInv(sender, reader, pos, true)
    ensures Written(reader, i) <= Read(sender, i)
  {
    SentIsRead(sender, i);
    WrittenWasSeen(reader, i);
    DataOfPrefix(reader.seen, sender.enq, i);
    FlatPrefix(Accepted(reader, i), DataOf(reader.seen, i));
    FlatPrefix(DataOf(reader.seen, i), DataOf(sender.enq, i));
  }

  /** Stream integrity: after every run, whatever stalls, dials, writes and kills it contains, the bytes
      written to a stream's far socket are a prefix of the bytes read from its own near socket. */
  lemma StreamIntegrity(run: seq<TunnelStep>, i: Id)
    requires Legal(run)
    ensures var t := After(run);
            && (t.upLossless ==> Written(t.s, i) <= Read(t.c, i))
            && (t.downLossless ==> Written(t.c, i) <= Read(t.s, i))
  {
    Always(run);
    var t := After(run);
    if t.upLossless { PrefixAcross(t.c, t.s, t.upPos, i); }
    if t.downLossless { PrefixAcross(t.s, t.c, t.downPos, i); }
  }

  lemma OrderAcross(sender: Endpoint, reader: Endpoint, pos: nat, lossless: bool, i: Id)
    requires StreamInv(sender) && StreamInv(reader) && WireInv(sender, reader, pos, lossless)
    ensures IsSubsequence(Accepted(reader, i), DataOf(sender.enq, i))
    ensures Written(reader, i) <= Flat(Accepted(reader, i))
    ensures Flat(DataOf(sender.enq, i)) <= Read(sender, i)
  {
    SentIsRead(sender, i);
    WrittenWasSeen(reader, i);
    SeenOfSent(reader.seen, sender.enq, pos, Accepted(reader, i), i);
  }

  /** What was read is part of what was sent, and so is what was accepted of it. */
  lemma SeenOfSent(seen: seq<Frame>, enq: seq<Frame>, pos: nat, accepted: seq<seq<Byte>>, i: Id)
    requires pos <= |enq| && IsSubsequence(seen, enq[..pos]) && accepted <= DataOf(seen, i)
    ensures IsSubsequence(accepted, DataOf(enq, i))
  {
    assert IsSubsequence(seen, enq) by {
      SubsequenceExtend(seen, enq[..pos], enq[pos..]);
      assert enq == enq[..pos] + enq[pos..];
    }
    assert IsSubsequence(DataOf(seen, i), DataOf(enq, i)) by {
      DataOfSubsequence(seen, enq, i);
    }
    SubsequencePrefix(accepted, DataOf(seen, i), DataOf(enq, i));
  }

  /** On a wire that loses records the chunks delivered are a subsequence of the chunks sent: nothing is
      reordered, repeated, or crossed over from another stream. */
  lemma LossyOrder(run: seq<TunnelStep>, i: Id)
    requires Legal(run)
    ensures var t := After(run);
            && IsSubsequence(Accepted(t.s, i), DataOf(t.c.enq, i)) && Written(t.s, i) <= Flat(Accepted(t.s, i))
            && IsSubsequence(Accepted(t.c, i), DataOf(t.s.enq, i)) && Written(t.c, i) <= Flat(Accepted(t.c, i))
            && Flat(DataOf(t.c.enq, i)) <= Read(t.c, i) && Flat(DataOf(t.s.enq, i)) <= Read(t.s, i)
  {
    Always(run);
    var t := After(run);
    OrderAcross(t.c, t.s, t.upPos, t.upLossless, i);
    OrderAcross(t.s, t.c, t.downPos, t.downLossless, i);
  }

  // ── half-close ─────────────────────────────────────────────────────────────

  /** At the far end: a FIN means the CLOSE was read and everything read before it was written. */
  lemma FinAtReader(e: Endpoint, i: Id)
    requires Phases(e) && CleanInv(e, i) && Finned(e, i)
    ensures Mux.Close(i) in e.seen && Written(e, i) == Flat(DataOf(e.seen, i))
  {
    assert PhaseOk(e.role, e.streams[i]);
    assert InHand(e.hand, i) == [];
    assert e.streams[i].acc == e.streams[i].acc + [];
  }

  /** At the near end: a CLOSE means the socket ended and everything read from it was sent. */
  lemma CloseAtSender(e: Endpoint, i: Id)
    requires StreamInv(e) && CleanInv(e, i) && Mux.Close(i) in e.enq
    ensures Finished(e, i) && Flat(DataOf(e.enq, i)) == Read(e, i)
  {
    assert UpOk(e.streams[i], DataOf(e.enq, i));
  }

  lemma FinMeansAll(sender: Endpoint, reader: Endpoint, pos: nat, i: Id)
    requires StreamInv(sender) && Phases(reader) && WireInv(sender, reader, pos, true)
    requires CleanInv(sender, i) && CleanInv(reader, i) && Finned(reader, i)
    ensures Finished(sender, i) && Written(reader, i) == Read(sender, i)
  {
    FinAtReader(reader, i);
    CloseAtSender(sender, i);
    AllReadByClose(sender.enq, pos, i);
  }

  /** Exact half-close of one stream, whatever happens to all the others: if nothing was lost or killed and stream
      `i` itself neither stalled nor had its dial or a local write fail, then a direction of it is FINed only
      after the near socket ended and every byte read from it was written; every DATA of it finds it
      registered; no CLOSE of it is ever echoed and nothing follows its CLOSE. */
  lemma ExactHalfClose(run: seq<TunnelStep>, i: Id)
    requires Legal(run) && CleanFor(After(run), i)
    ensures var t := After(run);
            && (Finned(t.s, i) ==> Finished(t.c, i) && Written(t.s, i) == Read(t.c, i))
            && (Finned(t.c, i) ==> Finished(t.s, i) && Written(t.c, i) == Read(t.s, i))
            && (t.c.hand.Looking? || t.c.hand.Delivering? ==> t.c.hand.id != i || i in t.c.reg)
            && (t.s.hand.Looking? || t.s.hand.Delivering? ==> t.s.hand.id != i || i in t.s.reg)
            && t.c.hand != Echoing(i) && t.s.hand != Echoing(i)
            && SilentAfterClose(t.c.enq, i) && SilentAfterClose(t.s.enq, i)
  {
    Always(run);
    var t := After(run);
    assert CleanFor(t, i);
    if Finned(t.s, i) { FinMeansAll(t.c, t.s, t.upPos, i); }
    if Finned(t.c, i) { FinMeansAll(t.s, t.c, t.downPos, i); }
  }

  /** The downlink has a chunk to take, bytes to write, or the end of its channel to see. */
  ghost predicate DownlinkHasStep(e: Endpoint, i: Id) {
    || PumpEnabled(e, DownTake(i)) || PumpEnabled(e, DownEnds(i))
    || exists n :: PumpEnabled(e, DownWrite(i, n))
  }

  /** Once the CLOSE has been handled, a running downlink that has not FINed can move. */
  lemma DownlinkCanMove(e: Endpoint, i: Id)
    requires Phases(e) && CloseInv(e) && e.hand == Idle && Mux.Close(i) in e.seen
    requires i in e.streams && e.streams[i].task == Pumping && !e.streams[i].fin
    ensures DownlinkHasStep(e, i)
  {
    var st := e.streams[i];
    assert PhaseOk(e.role, st);
    if st.down.DownWriting? {
      assert PumpEnabled(e, DownWrite(i, |st.down.rest|));
    }
  }

  /** In every run, whatever went wrong in it: a downlink whose CLOSE was handled is never stuck. */
  lemma DownlinkMoves(run: seq<TunnelStep>, client: bool, i: Id)
    requires Legal(run)
    ensures var e := End(After(run), client);
            e.hand == Idle && Mux.Close(i) in e.seen && i in e.streams && e.streams[i].task == Pumping && !Finned(e, i)
            ==> DownlinkHasStep(e, i)
  {
    Always(run);
    var e := End(After(run), client);
    if e.hand == Idle && Mux.Close(i) in e.seen && i in e.streams && e.streams[i].task == Pumping && !Finned(e, i) {
      DownlinkCanMove(e, i);
    }
  }

  /** A finished uplink has sent its CLOSE. */
  lemma FinishedHasClosed(run: seq<TunnelStep>, client: bool, i: Id)
    requires Legal(run) && CleanFor(After(run), i) && Finished(End(After(run), client), i)
    ensures Mux.Close(i) in End(After(run), client).enq
  {
    Always(run);
    var e := End(After(run), client);
    assert CleanFor(After(run), i);
    assert CleanStream(e.streams[i], i, e);
  }

  /** A direction of a clean stream closed at its near end can be run to its end, wherever its frames, its OPEN or
      the dial are and whatever the other streams are stuck in, and without hurting any stream that is still
      clean; the far socket has then been FINed behind every byte the near socket gave. By `ExactHalfClose`
      it is never FINed earlier. */
  lemma HalfCloseDelivers(run: seq<TunnelStep>, client: bool, i: Id) returns (more: seq<TunnelStep>)
    requires Legal(run) && CleanFor(After(run), i) && Finished(End(After(run), !client), i)
    ensures Legal(run + more) && Spares(After(run), After(run + more))
    ensures Finned(End(After(run + more), client), i)
    ensures Written(End(After(run + more), client), i) == Read(End(After(run), !client), i)
  {
    FinishedHasClosed(run, !client, i);
    FutureOfRun(run);
    var t' := ClosedStreamFins(FutureOf(run), After(run), client, i);
    more :| Run(run + more) == Some(t');
    assert CleanFor(t', i);
    ExactHalfClose(run + more, i);
  }

  lemma StreamCarries(future: iset<Tunnel>, bytes: seq<Byte>) returns (t: Tunnel)
    requires IsFuture(future) && START in future && 0 < |bytes| <= 16384
    ensures t in future && NobodyHurt(t) && Finished(t.c, 1) && Read(t.c, 1) == bytes
  {
    t := StreamOpens(future);
    t := Pumps(future, t, true, UpRead(1, bytes));
    t := Pumps(future, t, true, UpSend(1));
    t := Pumps(future, t, true, UpEof(1));
    t := Pumps(future, t, true, UpClose(1));
  }

  /** It does happen: a stream carries some bytes to the server and ends. */
  lemma SessionHappens(bytes: seq<Byte>) returns (run: seq<TunnelStep>)
    requires 0 < |bytes| <= 16384
    ensures Legal(run) && NobodyHurt(After(run)) && Finned(After(run).s, 1) && Written(After(run).s, 1) == bytes
  {
    FutureOfRun([]);
    var t := StreamCarries(FutureOf([]), bytes);
    run :| Run([] + run) == Some(t);
    assert [] + run == run;
    NobodyHurtIsClean(t);
    var more := HalfCloseDelivers(run, false, 1);
    run := run + more;
    NobodyHurtIsClean(After(run));
  }

  // ── no leak, no displacement ───────────────────────────────────────────────

  /** Alive, nothing lost, nothing in flight, and every stream task finished sending. */
  predicate AtRest(t: Tunnel) {
    && t.c.death.killers == map[] && t.s.death.killers == map[]
    && t.upLossless && t.downLossless
    && t.upPos == |t.c.enq| && t.downPos == |t.s.enq|
    && t.c.hand == Idle && t.s.hand == Idle
    && (forall i :: i in t.c.streams ==> t.c.streams[i].up == UpDone || t.c.streams[i].task == Abandoned)
    && (forall i :: i in t.s.streams ==> t.s.streams[i].up == UpDone || t.s.streams[i].task == Refused)
  }

  /** No stream leak: at rest both registries are empty, even after stalls, dial failures and failed writes. */
  lemma NoStreamLeak(run: seq<TunnelStep>)
    requires Legal(run) && AtRest(After(run))
    ensures After(run).c.reg == {} && After(run).s.reg == {}
  {
    Always(run);
    var t := After(run);
    assert t.c.enq[..|t.c.enq|] == t.c.enq && t.s.enq[..|t.s.enq|] == t.s.enq;
    assert t.s.seen == t.c.enq && t.c.seen == t.s.enq;
    forall i | i in t.c.reg
      ensures false
    {
      ClientEntryGone(t, i);
    }
    forall i | i in t.s.reg
      ensures false
    {
      ServerEntryGone(t, i);
    }
  }

  /** No killer ever started, so no attempt was given up. */
  lemma NobodyAbandoned(e: Endpoint, i: Id)
    requires LocalInv(e) && e.death.killers == map[] && i in e.streams
    ensures e.streams[i].task != Abandoned
  {
  }

  lemma ClientEntryGone(t: Tunnel, i: Id)
    requires Inv(t) && AtRest(t) && t.s.seen == t.c.enq && t.c.seen == t.s.enq && i in t.c.streams
    ensures i !in t.c.reg
  {
    NobodyAbandoned(t.c, i);
    assert PhaseOk(t.c.role, t.c.streams[i]);
    assert i in Ids(t.c.enq);
    OpenPrecedes(t.c.enq, i);
    assert i in t.s.streams;
    assert Mux.Close(i) in t.s.enq;
  }

  lemma ServerEntryGone(t: Tunnel, i: Id)
    requires Inv(t) && AtRest(t) && t.s.seen == t.c.enq && t.c.seen == t.s.enq && i in t.s.streams
    ensures i !in t.s.reg
  {
    IdsOf(t.s.seen, Mux.Open(i));
    assert i in t.c.streams;
    NobodyAbandoned(t.c, i);
    assert Mux.Close(i) in t.c.enq;
  }

  /** No `register` call ever displaces an entry: not on the client, for as long as fewer than 2^32 ids were
      handed out, and not on the server, whatever was lost on the way. */
  lemma RegisterNeverDisplaces(run: seq<TunnelStep>, i: Id)
    requires Legal(run)
    ensures var t := After(run);
            && (MayHappen(t, AtClient(Task(Register(i)))) ==> i !in t.c.reg && i !in t.c.streams)
            && (t.s.hand == Hand.Opening(i) ==> i !in t.s.reg && i !in t.s.streams)
            && !t.c.hand.Opening?
  {
    Always(run);
  }

  /** A dial that failed has no entry any more when its CLOSE goes out, nor ever after. */
  lemma RefusedIsUnregistered(run: seq<TunnelStep>, i: Id)
    requires Legal(run)
    ensures var e := After(run).s;
            i in e.streams && (e.streams[i].task == Unregistered || e.streams[i].task == Refused) ==> i !in e.reg
  {
    Always(run);
  }

  // ── death ──────────────────────────────────────────────────────────────────

  /** Fan-out over whole runs: once an end is dead and its reader and all its killers have returned, every
      pump it ever spawned has lost its senders. */
  lemma DeathReachesEveryPump(run: seq<TunnelStep>, i: Id)
    requires Legal(run)
    ensures var t := After(run);
            && (Settled(t.c) && i in t.c.streams && PumpBound(t.c.streams[i]) ==> !HasSender(t.c, i))
            && (Settled(t.s) ==> !HasSender(t.s, i))
  {
    Always(run);
    var t := After(run);
    if Settled(t.c) && i in t.c.streams && PumpBound(t.c.streams[i]) {
      FanOutComplete(t.c, i);
    }
  }

  /** Longer runs of the same tunnel. */
  lemma {:induction false} FirstCauseWins(run: seq<TunnelStep>, n: nat)
    requires Legal(run) && n <= |run|
    ensures Legal(run[..n])
    ensures DeathGrows(After(run[..n]).c.death, After(run).c.death)
    ensures DeathGrows(After(run[..n]).s.death, After(run).s.death)
    decreases |run|
  {
    if n == |run| {
      assert run[..n] == run;
    } else {
      var front, last := run[..|run| - 1], run[|run| - 1];
      FirstCauseWins(front, n);
      assert front[..n] == run[..n];
      match last
      case AtClient(a) => DeathGrowsStep(After(front).c, a);
      case AtServer(a) => DeathGrowsStep(After(front).s, a);
      case _ =>
    }
  }

  /** A loop that stops after a cause was recorded does not log another one. */
  lemma {:induction false} LateLoopsStaySilent(run: seq<TunnelStep>, n: nat, client: bool, k: KillerId)
    requires Legal(run) && n <= |run| && Legal(run[..n])
    requires End(After(run[..n]), client).death.cause.Some? && !Started(End(After(run[..n]), client), k)
    ensures Silent(End(After(run), client).death, k)
    decreases |run|
  {
    if n == |run| {
      assert run[..n] == run;
    } else {
      var front, last := run[..|run| - 1], run[|run| - 1];
      assert front[..n] == run[..n];
      LateLoopsStaySilent(front, n, client, k);
      match last
      case AtClient(a) => if client { SilentStep(After(front).c, a, k); }
      case AtServer(a) => if !client { SilentStep(After(front).s, a, k); }
      case _ =>
    }
  }

  /** Dead implies a cause; the cause was logged by the loop that set it, or came from an explicit kill. */
  lemma EveryDeathExplained(run: seq<TunnelStep>)
    requires Legal(run)
    ensures CauseExplained(After(run).c.death) && CauseExplained(After(run).s.death)
  {
    Always(run);
    CauseIsExplained(After(run).c.death);
    CauseIsExplained(After(run).s.death);
  }
}
