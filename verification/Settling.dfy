// A dead end settles: its writer and its reader get out, every killer returns, and every pump it ever spawned
// FINs its local socket.
module Settling {
  import opened Bytes
  import opened Mux
  import opened Endpoint
  import opened Death
  import opened Tunnel
  import opened Futures

  // ── killers return ─────────────────────────────────────────────────────────

  /** Only killer `k` of this end has moved. */
  predicate OnlyKiller(t: Tunnel, t': Tunnel, client: bool, k: KillerId) {
    && PeerSame(t, t', client) && Pos(t', client) == Pos(t, client)
    && End(t', client).streams == End(t, client).streams && End(t', client).hand == End(t, client).hand
    && k in End(t', client).death.killers
    && End(t', client).death.killers == End(t, client).death.killers[k := End(t', client).death.killers[k]]
    && (End(t, client).death.dead ==> End(t', client).death.dead)
  }

  lemma Advances(future: iset<Tunnel>, t: Tunnel, client: bool, k: KillerId) returns (t': Tunnel)
    requires IsFuture(future) && t in future && Started(End(t, client), k) && !HasReturned(End(t, client), k)
    ensures t' in future && OnlyKiller(t, t', client, k)
    ensures PiecesLeft(End(t', client).death.killers[k].pc) < PiecesLeft(End(t, client).death.killers[k].pc)
  {
    t' := Goes(future, t, client, Kill(KillStep.Advance(k)));
  }

  function PiecesLeft(pc: KillPc): nat {
    match pc
    case AtCheck => 5
    case AtLog => 4
    case AtCause => 3
    case AtFlag => 2
    case AtClear => 1
    case Returned => 0
  }

  lemma {:induction false} KillerReturns(future: iset<Tunnel>, t: Tunnel, client: bool, k: KillerId)
    returns (t': Tunnel)
    requires IsFuture(future) && t in future && Started(End(t, client), k)
    ensures t' in future && OnlyKiller(t, t', client, k) && HasReturned(End(t', client), k)
    decreases PiecesLeft(End(t, client).death.killers[k].pc)
  {
    if HasReturned(End(t, client), k) {
      t' := t;
    } else {
      var u := Advances(future, t, client, k);
      t' := KillerReturns(future, u, client, k);
    }
  }

  /** The reader or the writer of a dead end sees the flag. */
  lemma LoopStops(future: iset<Tunnel>, t: Tunnel, client: bool, k: KillerId) returns (t': Tunnel)
    requires IsFuture(future) && t in future && End(t, client).death.dead && (k == KReader || k == KWriter)
    requires k == KReader ==> End(t, client).hand == Idle
    ensures t' in future && OnlyKiller(t, t', client, k) && HasReturned(End(t', client), k)
  {
    var u := t;
    if !Started(End(t, client), k) {
      u := Goes(future, t, client, Kill(Start(k, Killed)));
    }
    t' := KillerReturns(future, u, client, k);
  }

  /** The writer goes first, so that no send waits any more; then the reader finishes what it has in hand. */
  lemma LoopsStop(future: iset<Tunnel>, t: Tunnel, client: bool) returns (t': Tunnel)
    requires IsFuture(future) && t in future && End(t, client).death.dead
    ensures t' in future && End(t', client).death.dead && HasReturned(End(t', client), KReader)
  {
    var u := LoopStops(future, t, client, KWriter);
    u := HandFinishes(future, u, client);
    t' := LoopStops(future, u, client, KReader);
  }

  function Running(e: Endpoint): set<KillerId> {
    set k | k in e.death.killers && e.death.killers[k].pc != Returned
  }

  lemma {:induction false} KillersReturn(future: iset<Tunnel>, t: Tunnel, client: bool) returns (t': Tunnel)
    requires IsFuture(future) && t in future && End(t, client).death.dead && HasReturned(End(t, client), KReader)
    ensures t' in future && Settled(End(t', client))
    decreases |Running(End(t, client))|
  {
    if Running(End(t, client)) == {} {
      t' := t;
      NobodyRuns(End(t, client));
    } else {
      var k :| k in Running(End(t, client));
      var u := KillerReturns(future, t, client, k);
      OneLess(Running(End(t, client)), Running(End(u, client)), k);
      t' := KillersReturn(future, u, client);
    }
  }

  lemma NobodyRuns(e: Endpoint)
    requires Running(e) == {}
    ensures forall k :: k in e.death.killers ==> e.death.killers[k].pc == Returned
  {
    forall k | k in e.death.killers
      ensures e.death.killers[k].pc == Returned
    {
      assert k !in Running(e);
    }
  }

  lemma OneLess<T>(a: set<T>, b: set<T>, x: T)
    requires b <= a && x in a && x !in b
    ensures |b| < |a|
  {
    var rest := a - {x};
    assert a == rest + {x} && b <= rest;
    SubsetSmaller(b, rest);
  }

  lemma SubsetSmaller<T>(b: set<T>, a: set<T>)
    requires b <= a
    ensures |b| <= |a|
  {
    assert a == b + (a - b);
  }

  // ── pumps finish ───────────────────────────────────────────────────────────

  function Unfinished(e: Endpoint): set<Id> {
    set i | i in e.streams && e.streams[i].task == Pumping && !e.streams[i].fin
  }

  lemma NoSenderLeft(future: iset<Tunnel>, t: Tunnel, client: bool, i: Id)
    requires IsFuture(future) && t in future && Settled(End(t, client))
    requires i in End(t, client).streams && End(t, client).streams[i].task == Pumping
    ensures !HasSender(End(t, client), i)
  {
    assert Inv(t);
    FanOutComplete(End(t, client), i);
  }

  lemma {:induction false} PumpsFin(future: iset<Tunnel>, t: Tunnel, client: bool) returns (t': Tunnel)
    requires IsFuture(future) && t in future && Settled(End(t, client))
    ensures t' in future && Settled(End(t', client)) && Unfinished(End(t', client)) == {}
    decreases |Unfinished(End(t, client))|
  {
    if Unfinished(End(t, client)) == {} {
      t' := t;
    } else {
      var i :| i in Unfinished(End(t, client));
      NoSenderLeft(future, t, client, i);
      var u := DownlinkDrains(future, t, client, i);
      OneLess(Unfinished(End(t, client)), Unfinished(End(u, client)), i);
      t' := PumpsFin(future, u, client);
    }
  }

  /** Every run in which an end has died goes on, if its tasks are scheduled, to a point where its reader and all
      its killers have returned and every pump it ever spawned has lost its senders and FINed. */
  lemma DeadEndSettles(run: seq<TunnelStep>, client: bool) returns (more: seq<TunnelStep>)
    requires Legal(run) && End(After(run), client).death.dead
    ensures Legal(run + more) && Settled(End(After(run + more), client))
    ensures var e := End(After(run + more), client);
            forall i :: i in e.streams && e.streams[i].task == Pumping ==> e.streams[i].fin && !HasSender(e, i)
  {
    var future := FutureOf(run);
    FutureOfRun(run);
    var t := LoopsStop(future, After(run), client);
    t := KillersReturn(future, t, client);
    t := PumpsFin(future, t, client);
    more :| Run(run + more) == Some(t);
    var e := End(t, client);
    forall i | i in e.streams && e.streams[i].task == Pumping
      ensures e.streams[i].fin && !HasSender(e, i)
    {
      NoSenderLeft(future, t, client, i);
      assert i !in Unfinished(e);
    }
  }
}
