// src/client.rs: the TunnelManager with its mutex, and any number of accept_connection tasks racing with
// each other and with the deaths of the tunnels they dial.
module Manager {
  import opened Bytes

  const ATTEMPTS := 2

  type TunnelId = nat
  type ConnId = nat

  /** Where one `accept_connection` stands in its current attempt. */
  datatype Pc =
    | Waiting                    // for the mutex
    | Holding                    // mutex held, cached tunnel not yet looked at
    | Dialing                    // mutex held, connect and handshake running
    | Dialed(t: TunnelId)        // mutex held, new tunnel spawned, not yet cached
    | HasTunnel(t: TunnelId)     // mutex released; allocate and register
    | Registered(t: TunnelId)    // OPEN not yet enqueued
    | Opened(t: TunnelId)        // death flag not yet re-checked
    | Served(t: TunnelId)        // pump spawned
    | Failed                     // "no usable tunnel"

  /** `attempt` counts from 0; `dials`, `opens` (the tunnels an OPEN was enqueued on) and `pumps` record what the
      connection has used so far. */
  datatype Conn = Conn(attempt: nat, pc: Pc, dials: nat, opens: seq<TunnelId>, pumps: nat)

  datatype Manager = Manager(
    produced: nat,                 // tunnels ever spawned: 0, 1, ..., produced - 1
    alive: set<TunnelId>,
    current: Option<TunnelId>,
    lock: Option<ConnId>,
    conns: map<ConnId, Conn>
  )

  const START := Manager(0, {}, None, None, map[])

  datatype Step =
    | Accept(k: ConnId)
    | Lock(k: ConnId)
    | LookAtCached(k: ConnId)
    | DialFails(k: ConnId)
    | DialSucceeds(k: ConnId)
    | Cache(k: ConnId)
    | Register(k: ConnId)
    | OpenFails(k: ConnId)
    | OpenSucceeds(k: ConnId)
    | CheckAndSpawn(k: ConnId)
    | Dies(t: TunnelId)

  /** `continue`: the next attempt, or the error after the last one. */
  function NextAttempt(c: Conn): Conn {
    c.(attempt := c.attempt + 1, pc := if c.attempt + 1 < ATTEMPTS then Waiting else Failed)
  }

  predicate At(m: Manager, k: ConnId, pc: Pc) {
    k in m.conns && m.conns[k].pc == pc
  }

  predicate Enabled(m: Manager, s: Step) {
    match s
    case Accept(k) => k !in m.conns
    case Lock(k) => At(m, k, Waiting) && m.lock == None
    case LookAtCached(k) => At(m, k, Holding)
    case DialFails(k) => At(m, k, Dialing)
    case DialSucceeds(k) => At(m, k, Dialing)
    case Cache(k) => k in m.conns && m.conns[k].pc.Dialed?
    case Register(k) => k in m.conns && m.conns[k].pc.HasTunnel?
    case OpenFails(k) => k in m.conns && m.conns[k].pc.Registered?
    case OpenSucceeds(k) => k in m.conns && m.conns[k].pc.Registered?
    case CheckAndSpawn(k) => k in m.conns && m.conns[k].pc.Opened?
    case Dies(t) => t in m.alive
  }

  function Put(m: Manager, k: ConnId, c: Conn): Manager {
    m.(conns := m.conns[k := c])
  }

  function Do(m: Manager, s: Step): Manager
    requires Enabled(m, s)
  {
    match s
    case Accept(k) => Put(m, k, Conn(0, Waiting, 0, [], 0))
    case Lock(k) => Put(m, k, m.conns[k].(pc := Holding)).(lock := Some(k))
    case LookAtCached(k) =>
      if m.current.Some? && m.current.value in m.alive
      then Put(m, k, m.conns[k].(pc := HasTunnel(m.current.value))).(lock := None)
      else Put(m, k, m.conns[k].(pc := Dialing, dials := m.conns[k].dials + 1))
    case DialFails(k) => Put(m, k, NextAttempt(m.conns[k])).(lock := None)
    case DialSucceeds(k) =>
      Put(m, k, m.conns[k].(pc := Dialed(m.produced))).(produced := m.produced + 1, alive := m.alive + {m.produced})
    case Cache(k) =>
      var t := m.conns[k].pc.t;
      Put(m, k, m.conns[k].(pc := HasTunnel(t))).(current := Some(t), lock := None)
    case Register(k) => Put(m, k, m.conns[k].(pc := Registered(m.conns[k].pc.t)))
    case OpenFails(k) => Put(m, k, NextAttempt(m.conns[k]))
    case OpenSucceeds(k) =>
      Put(m, k, m.conns[k].(pc := Opened(m.conns[k].pc.t), opens := m.conns[k].opens + [m.conns[k].pc.t]))
    case CheckAndSpawn(k) =>
      if m.conns[k].pc.t in m.alive
      then Put(m, k, m.conns[k].(pc := Served(m.conns[k].pc.t), pumps := m.conns[k].pumps + 1))
      else Put(m, k, NextAttempt(m.conns[k]))
    case Dies(t) => m.(alive := m.alive - {t})
  }

  // ── the invariant ──────────────────────────────────────────────────────────

  predicate HoldsLock(pc: Pc) {
    pc == Holding || pc == Dialing || pc.Dialed?
  }

  predicate Handled(pc: Pc) {
    pc.Served? || pc == Failed
  }

  /** How far one task may have got. */
  predicate ConnOk(c: Conn) {
    && c.attempt <= ATTEMPTS
    && (c.attempt == ATTEMPTS <==> c.pc == Failed)
    && c.pumps == (if c.pc.Served? then 1 else 0)
    && c.dials <= c.attempt + (if c.pc == Waiting || c.pc == Holding || c.pc == Failed then 0 else 1)
    && |c.opens| <= c.attempt + (if c.pc.Opened? || c.pc.Served? then 1 else 0)
    && (c.pc.Opened? || c.pc.Served? ==> c.opens != [] && c.opens[|c.opens| - 1] == c.pc.t)
  }

  /** The cached tunnel cannot be used. */
  predicate CacheDead(m: Manager) {
    m.current.None? || m.current.value !in m.alive
  }

  predicate Inv(m: Manager) {
    && (forall k :: k in m.conns ==> ConnOk(m.conns[k]))
    && (forall k :: k in m.conns ==> (HoldsLock(m.conns[k].pc) <==> m.lock == Some(k)))
    && (m.lock.Some? ==> m.lock.value in m.conns)
    && (forall t :: t in m.alive ==> t < m.produced)
    // a live tunnel is the cached one, or the one just dialed by the holder of the mutex
    && (forall t :: t in m.alive ==>
          || m.current == Some(t)
          || (m.lock.Some? && m.conns[m.lock.value].pc == Dialed(t)))
    && (m.lock.Some? && (m.conns[m.lock.value].pc == Dialing || m.conns[m.lock.value].pc.Dialed?) ==> CacheDead(m))
    && (m.current.Some? ==> m.current.value < m.produced)
    && (m.lock.Some? && m.conns[m.lock.value].pc.Dialed? ==> m.conns[m.lock.value].pc.t < m.produced)
  }

  /** A task that neither holds the mutex nor takes it moves on. */
  lemma InvPut(m: Manager, k: ConnId, c: Conn)
    requires Inv(m) && k in m.conns && !HoldsLock(m.conns[k].pc) && !HoldsLock(c.pc) && ConnOk(c)
    ensures Inv(Put(m, k, c))
  {
    assert HoldsLock(m.conns[k].pc) <==> m.lock == Some(k);
  }

  lemma InvLockFree(m: Manager, s: Step)
    requires Inv(m) && Enabled(m, s)
    requires s.Accept? || s.Register? || s.OpenFails? || s.OpenSucceeds? || s.CheckAndSpawn? || s.Dies?
    ensures Inv(Do(m, s))
  {
    if !s.Accept? && !s.Dies? {
      assert ConnOk(m.conns[s.k]);
      InvPut(m, s.k, Do(m, s).conns[s.k]);
      assert Do(m, s) == Put(m, s.k, Do(m, s).conns[s.k]);
    }
  }

  lemma InvLocked(m: Manager, s: Step)
    requires Inv(m) && Enabled(m, s)
    requires s.Lock? || s.LookAtCached? || s.DialFails?
    ensures Inv(Do(m, s))
  {
    assert ConnOk(m.conns[s.k]) && (HoldsLock(m.conns[s.k].pc) <==> m.lock == Some(s.k));
  }

  lemma InvDialed(m: Manager, s: Step)
    requires Inv(m) && Enabled(m, s)
    requires s.DialSucceeds? || s.Cache?
    ensures Inv(Do(m, s))
  {
    assert ConnOk(m.conns[s.k]) && (HoldsLock(m.conns[s.k].pc) <==> m.lock == Some(s.k));
  }

  // ── whole runs ─────────────────────────────────────────────────────────────

  function Run(run: seq<Step>): Option<Manager> {
    if |run| == 0 then Some(START)
    else
      match Run(run[..|run| - 1])
      case None => None
      case Some(m) => if Enabled(m, run[|run| - 1]) then Some(Do(m, run[|run| - 1])) else None
  }

  lemma {:induction false} Always(run: seq<Step>)
    requires Run(run).Some?
    ensures Inv(Run(run).value)
  {
    if |run| > 0 {
      var front, s := run[..|run| - 1], run[|run| - 1];
      Always(front);
      var m := Run(front).value;
      if s.Lock? || s.LookAtCached? || s.DialFails? {
        InvLocked(m, s);
      } else if s.DialSucceeds? || s.Cache? {
        InvDialed(m, s);
      } else {
        InvLockFree(m, s);
      }
    }
  }

  /** At most one tunnel is alive at any time: of all the tunnels ever dialed, every one but the cached one
      (or, until it is cached, the one just dialed) is dead; and at most one dial runs at a time. */
  lemma AtMostOneLiveTunnel(run: seq<Step>)
    requires Run(run).Some?
    ensures var m := Run(run).value;
            && (forall t, u :: t in m.alive && u in m.alive ==> t == u)
            && (forall t :: t in m.alive && m.lock == None ==> m.current == Some(t))
            && (forall k, j :: k in m.conns && j in m.conns && HoldsLock(m.conns[k].pc) && HoldsLock(m.conns[j].pc)
                  ==> k == j)
  {
    Always(run);
  }

  /** How many tunnels have been cached: all but one that was just dialed. */
  function Cached(m: Manager): int {
    if m.lock.Some? && m.lock.value in m.conns && m.conns[m.lock.value].pc.Dialed? then m.produced - 1 else m.produced
  }

  predicate Newest(m: Manager) {
    && 0 <= Cached(m) && m.current == (if Cached(m) == 0 then None else Some(Cached(m) - 1))
    && (m.lock.Some? && m.lock.value in m.conns && m.conns[m.lock.value].pc.Dialed? ==>
          m.conns[m.lock.value].pc.t == m.produced - 1)
  }

  lemma NewestStep(m: Manager, s: Step)
    requires Inv(m) && Newest(m) && Enabled(m, s)
    ensures Newest(Do(m, s))
  {
    if !s.Dies? && s.k in m.conns {
      assert HoldsLock(m.conns[s.k].pc) <==> m.lock == Some(s.k);
    }
  }

  /** The cache always holds the newest tunnel that was put there, dead or alive; nothing but a newer one takes its
      place. */
  lemma {:induction false} CacheIsNewest(run: seq<Step>)
    requires Run(run).Some?
    ensures Newest(Run(run).value)
  {
    if |run| > 0 {
      CacheIsNewest(run[..|run| - 1]);
      Always(run[..|run| - 1]);
      NewestStep(Run(run[..|run| - 1]).value, run[|run| - 1]);
    }
  }

  // ── what each attempt of a connection came to ──────────────────────────────

  /** The step ends an attempt of `k` without a pump: the dial or the OPEN failed, or the tunnel was found dead
      when it was looked at again behind the OPEN. */
  predicate EndsAttempt(m: Manager, s: Step, k: ConnId) {
    || s == DialFails(k) || s == OpenFails(k)
    || (s == CheckAndSpawn(k) && k in m.conns && m.conns[k].pc.Opened? && m.conns[k].pc.t !in m.alive)
  }

  /** The step finds the tunnel still alive behind the OPEN. */
  predicate FindsAlive(m: Manager, s: Step, k: ConnId) {
    s == CheckAndSpawn(k) && k in m.conns && m.conns[k].pc.Opened? && m.conns[k].pc.t in m.alive
  }

  /** The step finds no live tunnel in the cache. */
  predicate FindsNone(m: Manager, s: Step, k: ConnId) {
    s == LookAtCached(k) && (m.current.None? || m.current.value !in m.alive)
  }

  /** How many steps of a run did so. */
  function Count(run: seq<Step>, k: ConnId, which: (Manager, Step, ConnId) -> bool): nat {
    if |run| == 0 then 0
    else
      var front, s := run[..|run| - 1], run[|run| - 1];
      Count(front, k, which) + (if Run(front).Some? && which(Run(front).value, s, k) then 1 else 0)
  }

  predicate Tallied(run: seq<Step>, k: ConnId, c: Conn) {
    && c.attempt == Count(run, k, EndsAttempt)
    && c.pumps == Count(run, k, FindsAlive)
    && c.dials == Count(run, k, FindsNone)
  }

  lemma StepTallies(m: Manager, s: Step, k: ConnId)
    requires Enabled(m, s)
    ensures k in m.conns ==>
              && k in Do(m, s).conns
              && Do(m, s).conns[k].attempt == m.conns[k].attempt + (if EndsAttempt(m, s, k) then 1 else 0)
              && Do(m, s).conns[k].pumps == m.conns[k].pumps + (if FindsAlive(m, s, k) then 1 else 0)
              && Do(m, s).conns[k].dials == m.conns[k].dials + (if FindsNone(m, s, k) then 1 else 0)
    ensures k !in m.conns ==> !EndsAttempt(m, s, k) && !FindsAlive(m, s, k) && !FindsNone(m, s, k)
    ensures k !in m.conns && k in Do(m, s).conns ==>
              var c := Do(m, s).conns[k]; c.attempt == 0 && c.pumps == 0 && c.dials == 0
  {
  }

  lemma {:induction false} RunTallies(run: seq<Step>, k: ConnId)
    requires Run(run).Some?
    ensures if k in Run(run).value.conns then Tallied(run, k, Run(run).value.conns[k])
            else Count(run, k, EndsAttempt) == Count(run, k, FindsAlive) == Count(run, k, FindsNone) == 0
  {
    if |run| > 0 {
      var front, s := run[..|run| - 1], run[|run| - 1];
      RunTallies(front, k);
      StepTallies(Run(front).value, s, k);
    }
  }

  /** Every accepted connection has exactly one pump if some attempt found its tunnel alive behind the OPEN it
      had enqueued on it, and none otherwise; it gives up exactly after two attempts that came to nothing; and
      it uses at most two dials and two OPENs. */
  lemma EachConnectionOnce(run: seq<Step>, k: ConnId)
    requires Run(run).Some? && k in Run(run).value.conns
    ensures var c := Run(run).value.conns[k];
            && c.pumps == Count(run, k, FindsAlive) <= 1 && c.dials == Count(run, k, FindsNone) <= 2
            && |c.opens| <= 2
            && (c.pc.Served? <==> Count(run, k, FindsAlive) == 1)
            && (c.pc.Served? ==> c.opens != [] && c.opens[|c.opens| - 1] == c.pc.t)
            && (c.pc == Failed <==> Count(run, k, EndsAttempt) == 2)
            && (c.pc == Failed ==> c.pumps == 0)
            && (c.pc.Served? ==> Count(run, k, EndsAttempt) <= 1)
  {
    RunTallies(run, k);
    OkConn(run, k);
    AtMostTwo(Run(run).value.conns[k]);
  }

  lemma OkConn(run: seq<Step>, k: ConnId)
    requires Run(run).Some? && k in Run(run).value.conns
    ensures ConnOk(Run(run).value.conns[k])
  {
    Always(run);
  }

  lemma AtMostTwo(c: Conn)
    requires ConnOk(c)
    ensures c.pumps <= 1 && c.dials <= 2 && |c.opens| <= 2
    ensures (c.pc.Served? <==> c.pumps == 1) && (c.pc == Failed <==> c.attempt == 2)
    ensures c.pc.Served? ==> c.opens != [] && c.opens[|c.opens| - 1] == c.pc.t && c.attempt <= 1
  {
  }

  // ── which tunnel a connection works with ───────────────────────────────────

  function TunnelOf(pc: Pc): Option<TunnelId> {
    match pc
    case Dialed(t) => Some(t)
    case HasTunnel(t) => Some(t)
    case Registered(t) => Some(t)
    case Opened(t) => Some(t)
    case Served(t) => Some(t)
    case _ => None
  }

  /** The tunnel the mutex gave `k` last: the cached one if it was alive then, or the one its own dial spawned. */
  function Given(run: seq<Step>, k: ConnId): Option<TunnelId>
    requires Run(run).Some?
  {
    if |run| == 0 then None
    else GivenNow(Run(run[..|run| - 1]).value, run[|run| - 1], k, Given(run[..|run| - 1], k))
  }

  function GivenNow(m: Manager, s: Step, k: ConnId, before: Option<TunnelId>): Option<TunnelId> {
    if s == DialSucceeds(k) then Some(m.produced)
    else if s == LookAtCached(k) && m.current.Some? && m.current.value in m.alive then m.current
    else before
  }

  /** The tunnels on which `k` enqueued an OPEN, in order. */
  function OpensOf(run: seq<Step>, k: ConnId): seq<TunnelId>
    requires Run(run).Some?
  {
    if |run| == 0 then []
    else
      var front := run[..|run| - 1];
      OpensOf(front, k)
      + if run[|run| - 1] == OpenSucceeds(k) && Given(front, k).Some? then [Given(front, k).value] else []
  }

  predicate KeepsTunnel(m: Manager, k: ConnId, given: Option<TunnelId>, opens: seq<TunnelId>) {
    if k in m.conns
    then (TunnelOf(m.conns[k].pc).Some? ==> TunnelOf(m.conns[k].pc) == given) && m.conns[k].opens == opens
    else opens == []
  }

  lemma KeepsTunnelStep(m: Manager, s: Step, k: ConnId, given: Option<TunnelId>, opens: seq<TunnelId>)
    requires KeepsTunnel(m, k, given, opens) && Enabled(m, s)
    ensures KeepsTunnel(Do(m, s), k, GivenNow(m, s, k, given),
                        opens + if s == OpenSucceeds(k) && given.Some? then [given.value] else [])
  {
  }

  /** A connection registers, opens, looks again and pumps on the one tunnel it was given, whatever the cache
      holds by then: every OPEN it enqueued went to the tunnel it had been given at that time. */
  lemma {:induction false} TunnelIsKept(run: seq<Step>, k: ConnId)
    requires Run(run).Some?
    ensures KeepsTunnel(Run(run).value, k, Given(run, k), OpensOf(run, k))
  {
    if |run| > 0 {
      var front, s := run[..|run| - 1], run[|run| - 1];
      TunnelIsKept(front, k);
      KeepsTunnelStep(Run(front).value, s, k, Given(front, k), OpensOf(front, k));
    }
  }

  /** What is left of a task's work: every step of a task except waiting for the mutex uses some of it up. */
  function Fuel(c: Conn): nat {
    if c.attempt >= ATTEMPTS then 0
    else
      (ATTEMPTS - 1 - c.attempt) * 8 + match c.pc
        case Waiting => 8
        case Holding => 7
        case Dialing => 6
        case Dialed(_) => 5
        case HasTunnel(_) => 4
        case Registered(_) => 3
        case Opened(_) => 2
        case _ => 0
  }

  /** A task always finishes: each of its steps uses up fuel, no other step gives any back, and while it is
      not finished it, or the holder of the mutex it waits for, has a step to take. */
  lemma TasksFinish(run: seq<Step>, s: Step, k: ConnId)
    requires Run(run).Some? && k in Run(run).value.conns && Enabled(Run(run).value, s)
    ensures var m := Run(run).value;
            if !s.Dies? && s.k == k
            then Fuel(Do(m, s).conns[k]) < Fuel(m.conns[k])
            else Do(m, s).conns[k] == m.conns[k]
  {
    Always(run);
    FuelDrops(Run(run).value, s, k);
  }

  lemma FuelDrops(m: Manager, s: Step, k: ConnId)
    requires k in m.conns && ConnOk(m.conns[k]) && Enabled(m, s)
    ensures if !s.Dies? && s.k == k then Fuel(Do(m, s).conns[k]) < Fuel(m.conns[k])
            else Do(m, s).conns[k] == m.conns[k]
  {
  }

  lemma SomebodyCanMove(run: seq<Step>, k: ConnId) returns (s: Step)
    requires Run(run).Some? && k in Run(run).value.conns && !Handled(Run(run).value.conns[k].pc)
    ensures Enabled(Run(run).value, s) && !s.Accept? && !s.Dies?
    ensures s.k == k || Run(run).value.lock == Some(s.k)
  {
    Always(run);
    var m := Run(run).value;
    var j := if m.conns[k].pc == Waiting && m.lock.Some? then m.lock.value else k;
    assert HoldsLock(m.conns[j].pc) <==> m.lock == Some(j);
    match m.conns[j].pc
    case Waiting => s := Lock(j);
    case Holding => s := LookAtCached(j);
    case Dialing => s := DialFails(j);
    case Dialed(_) => s := Cache(j);
    case HasTunnel(_) => s := Register(j);
    case Registered(_) => s := OpenSucceeds(j);
    case Opened(_) => s := CheckAndSpawn(j);
    case _ =>
  }

  // ── both endings happen ────────────────────────────────────────────────────

  lemma Goes(run: seq<Step>, m: Manager, s: Step) returns (run': seq<Step>, m': Manager)
    requires Run(run) == Some(m) && Enabled(m, s)
    ensures Run(run') == Some(m') && m' == Do(m, s)
  {
    run', m' := run + [s], Do(m, s);
    assert run'[..|run|] == run;
  }

  /** The first connection has enqueued its OPEN on the tunnel it dialed. */
  lemma FirstOpen() returns (run: seq<Step>, m: Manager)
    ensures Run(run) == Some(m) && m.produced == 1 && m.alive == {0} && m.current == Some(0) && m.lock == None
    ensures 0 in m.conns && m.conns[0] == Conn(0, Opened(0), 1, [0], 0)
  {
    run, m := [], START;
    run, m := Goes(run, m, Accept(0));
    run, m := Goes(run, m, Lock(0));
    run, m := Goes(run, m, LookAtCached(0));
    run, m := Goes(run, m, DialSucceeds(0));
    run, m := Goes(run, m, Cache(0));
    run, m := Goes(run, m, Register(0));
    run, m := Goes(run, m, OpenSucceeds(0));
  }

  /** It is served if that tunnel is alive. */
  lemma FirstConnectionIsServed() returns (run: seq<Step>)
    ensures Run(run).Some? && 0 in Run(run).value.conns && Run(run).value.conns[0].pc == Served(0)
  {
    var before, m := FirstOpen();
    run, m := Goes(before, m, CheckAndSpawn(0));
  }

  /** If the tunnel dies before it is looked at again the connection goes round once more, and a failed OPEN then
      ends it. */
  lemma DeadTunnelIsRetried() returns (run: seq<Step>)
    ensures Run(run).Some? && 0 in Run(run).value.conns && Run(run).value.conns[0].pc == Failed
    ensures Run(run).value.conns[0].opens == [0] && Run(run).value.conns[0].dials == 2
  {
    var before, m := FirstOpen();
    run := before;
    run, m := Goes(run, m, Dies(0));
    run, m := Goes(run, m, CheckAndSpawn(0));
    run, m := Goes(run, m, Lock(0));
    run, m := Goes(run, m, LookAtCached(0));
    run, m := Goes(run, m, DialSucceeds(0));
    run, m := Goes(run, m, Cache(0));
    run, m := Goes(run, m, Register(0));
    run, m := Goes(run, m, OpenFails(0));
  }
}
