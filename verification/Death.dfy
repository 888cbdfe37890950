// The death of one tunnel: racing killers, the first cause, and the fan-out to the pumps.
module Death {
  import opened Bytes
  import opened Mux
  import opened Endpoint
  import opened Bookkeeping

  // ── the death state ────────────────────────────────────────────────────────

  predicate PastCause(pc: KillPc) {
    pc == AtFlag || pc == AtClear || pc == Returned
  }

  predicate PastFlag(pc: KillPc) {
    pc == AtClear || pc == Returned
  }

  /** One killer against the shared state. */
  predicate KillerOk(d: Death, k: KillerId, x: Killer) {
    && (PastCause(x.pc) ==> d.cause.Some?)
    && (PastFlag(x.pc) ==> d.dead)
    && (d.causedBy == Some(k) ==> PastCause(x.pc) && d.cause == Some(x.cause))
    // a loop that reaches the slot without having logged was told of an earlier cause
    && (!k.KExternal? && (x.pc == AtCause || PastCause(x.pc)) && !x.logged ==> d.cause.Some? && d.causedBy != Some(k))
    // the reader and the writer say Killed only after they saw the flag
    && ((k == KReader || k == KWriter) && x.cause == Killed ==> d.dead && d.causedBy != Some(k))
    && (k.KExternal? ==> x.cause == Killed && !x.logged && x.pc != AtCheck && x.pc != AtLog)
    && MayCause(k, x.cause)
  }

  /** Which causes come from whom. */
  predicate MayCause(k: KillerId, cause: DeathCause) {
    match cause
    case PeerClosed => k == KReader
    case ReadError => k == KReader
    case BadFrame => k == KReader
    case WireCorruption => k == KReader || k == KWriter
    case WriteError => k == KWriter
    case KeepaliveTimeout => k == KKeepalive
    case Killed => k != KKeepalive
  }

  predicate DeathInv(d: Death) {
    && (d.dead ==> d.cause.Some?)
    && (d.cause.Some? <==> d.causedBy.Some?)
    && (d.causedBy.Some? ==> d.causedBy.value in d.killers)
    && forall k :: k in d.killers ==> KillerOk(d, k, d.killers[k])
  }

  lemma DeathStep(e: Endpoint, s: KillStep)
    requires DeathInv(e.death) && KillEnabled(e, s)
    ensures DeathInv(DoKill(e, s).death)
  {
    var d, d', k := e.death, DoKill(e, s).death, s.k;
    if s.Advance? {
      assert KillerOk(d, k, d.killers[k]);
    }
    forall j | j in d'.killers
      ensures KillerOk(d', j, d'.killers[j])
    {
      if j != k {
        assert KillerOk(d, j, d.killers[j]);
      }
    }
  }

  /** Who may be recorded as the cause of death, and what that killer has already done. */
  predicate CauseExplained(d: Death) {
    && (d.dead ==> d.cause.Some?)
    && (d.cause.Some? ==>
          && d.causedBy.Some? && d.causedBy.value in d.killers
          && var k := d.causedBy.value;
             && d.killers[k].cause == d.cause.value
             && (k.KExternal? || d.killers[k].logged)
             && (k.KExternal? <==> d.cause.value == Killed)
             && (k == KKeepalive <==> d.cause.value == KeepaliveTimeout)
             && (k == KWriter ==> d.cause.value == WriteError || d.cause.value == WireCorruption)
             && (k == KReader ==> d.cause.value == PeerClosed || d.cause.value == ReadError
                                  || d.cause.value == WireCorruption || d.cause.value == BadFrame))
    && (forall k :: k in d.killers && k.KExternal? ==> !d.killers[k].logged)
  }

  /** A recorded cause belongs to a loop that had already logged it, or to an explicit kill; a loop woken
      by somebody else's kill never gets to record `Killed`. */
  lemma CauseIsExplained(d: Death)
    requires DeathInv(d)
    ensures CauseExplained(d)
  {
    forall k | k in d.killers && k.KExternal?
      ensures !d.killers[k].logged
    {
      assert KillerOk(d, k, d.killers[k]);
    }
    if d.cause.Some? {
      assert KillerOk(d, d.causedBy.value, d.killers[d.causedBy.value]);
    }
  }

  /** Once set, the flag and the cause never change: the first cause wins. */
  predicate DeathGrows(d: Death, d': Death) {
    && (d.dead ==> d'.dead)
    && (d.cause.Some? ==> d'.cause == d.cause && d'.causedBy == d.causedBy)
    && d.killers.Keys <= d'.killers.Keys
    && forall k :: k in d.killers && d.killers[k].pc == Returned ==> d'.killers[k].pc == Returned
  }

  lemma DeathGrowsKill(e: Endpoint, s: KillStep)
    requires KillEnabled(e, s)
    ensures DeathGrows(e.death, DoKill(e, s).death)
  {
  }

  lemma DeathGrowsStep(e: Endpoint, a: Step)
    requires Enabled(e, a)
    ensures DeathGrows(e.death, Do(e, a).death)
  {
    if a.Kill? {
      DeathGrowsKill(e, a.s);
    }
  }

  /** There is a cause, and killer `k` has not logged and is not about to. */
  predicate Silent(d: Death, k: KillerId) {
    d.cause.Some? && (k in d.killers ==> !d.killers[k].logged && d.killers[k].pc != AtLog)
  }

  lemma SilentStep(e: Endpoint, a: Step, k: KillerId)
    requires Enabled(e, a) && Silent(e.death, k)
    ensures Silent(Do(e, a).death, k)
  {
    if a.Kill? {
      SilentKill(e, a.s, k);
    }
  }

  lemma SilentKill(e: Endpoint, s: KillStep, k: KillerId)
    requires KillEnabled(e, s) && Silent(e.death, k)
    ensures Silent(DoKill(e, s).death, k)
  {
  }

  // ── the fan-out ────────────────────────────────────────────────────────────

  predicate Clearing(d: Death) {
    exists k :: k in d.killers && d.killers[k].pc == AtClear
  }

  /** A pump runs on this stream, or will without another look at the death flag. */
  predicate PumpBound(st: Stream) {
    st.task == Checked || st.task == Pumping
  }

  /** While a dead client tunnel still has an entry of a pump, some killer is about to clear the registry;
      on the server the reader, which makes the entries, clears as the last thing it does. */
  predicate FanInv(e: Endpoint) {
    && DeathInv(e.death)
    && (Started(e, KReader) ==> e.hand == Idle)
    && (e.role == Server && HasReturned(e, KReader) ==> e.reg == {})
    && (e.role == Client && e.death.dead ==>
          forall i :: i in e.reg && i in e.streams && PumpBound(e.streams[i]) ==> Clearing(e.death))
  }

  lemma FanTask(e: Endpoint, t: TaskStep)
    requires Phases(e) && FanInv(e) && TaskEnabled(e, t)
    ensures FanInv(DoTask(e, t))
  {
    if !t.Alloc? && !t.Register? {
      assert PhaseOk(e.role, e.streams[t.i]);
    }
  }

  lemma FanKill(e: Endpoint, s: KillStep)
    requires FanInv(e) && KillEnabled(e, s)
    ensures FanInv(DoKill(e, s))
  {
    DeathStep(e, s);
    var e' := DoKill(e, s);
    if e'.role == Client && e'.death.dead && e'.reg != {} {
      if s.Advance? && e.death.killers[s.k].pc == AtFlag {
        assert e'.death.killers[s.k].pc == AtClear;
      } else if Clearing(e.death) {
        var k :| k in e.death.killers && e.death.killers[k].pc == AtClear;
        assert e'.death.killers[k].pc == AtClear;
      }
    }
  }

  lemma FanPump(e: Endpoint, p: PumpStep)
    requires FanInv(e) && PumpEnabled(e, p)
    ensures FanInv(DoPump(e, p))
  {
    assert PumpStream(e, p).task == e.streams[p.i].task;
  }

  lemma FanReader(e: Endpoint, r: ReaderStep)
    requires Phases(e) && FanInv(e) && ReaderEnabled(e, r)
    ensures FanInv(DoReader(e, r))
  {
  }

  lemma FanWire(e: Endpoint, w: WireStep)
    requires FanInv(e) && WireEnabled(e, w)
    ensures FanInv(DoWire(e, w))
  {
  }

  lemma FanStep(e: Endpoint, a: Step)
    requires Phases(e) && FanInv(e) && Enabled(e, a)
    ensures FanInv(Do(e, a))
  {
    match a
    case Task(t) => FanTask(e, t);
    case Pump(p) => FanPump(e, p);
    case Reader(r) => FanReader(e, r);
    case Wire(w) => FanWire(e, w);
    case Kill(s) => FanKill(e, s);
  }

  /** The tunnel is dead and nobody is killing it any more. */
  predicate Settled(e: Endpoint) {
    && e.death.dead && HasReturned(e, KReader)
    && forall k :: k in e.death.killers ==> e.death.killers[k].pc == Returned
  }

  /** The death fan-out misses no pump: every sender of every pump's channel is gone, so each downlink
      drains what it has, sees the end of input and FINs. */
  lemma FanOutComplete(e: Endpoint, i: Id)
    requires FanInv(e) && Phases(e) && Settled(e) && i in e.streams && PumpBound(e.streams[i])
    ensures !HasSender(e, i)
    ensures e.streams[i].down == DownRecv ==>
              PumpEnabled(e, DownTake(i)) || PumpEnabled(e, DownEnds(i))
  {
    assert PhaseOk(e.role, e.streams[i]);
  }
}
