/** The server's controls as a step system. Any number of clients log in, are replaced, register
    and close proxies, hand in work connections and shut down, in any interleaving of the
    goroutines; each mutex-guarded region or channel operation is one step. */
module ControlProtocol {
  import opened Options

  // ---------------------------------------------------------------- shutdown of one control

  /** How far the stopper has got: waiting, then closing one channel after the other, draining
      the closed pool, closing the proxies in `left`, and done. */
  datatype StopPhase =
    | Waiting | ReadClosed | SendClosed | ConnClosed | Draining
    | ClosingProxies(left: set<string>) | Finished

  datatype Life = Life(
    started: bool, stopRequested: bool, managerDone: bool, writerDone: bool, readerDone: bool,
    stop: StopPhase)

  datatype LifeEvent =
    | Start | RequestStop | ManagerExit | WriterExit | ReaderExit
    | CloseRead | CloseSend | CloseConn | ClosePool | DrainEnd | CloseOne(name: string) | Finish

  const NOT_STARTED := Life(false, false, false, false, false, Waiting)

  predicate PoolOpen(l: Life) {
    l.stop.Waiting? || l.stop.ReadClosed? || l.stop.SendClosed? || l.stop.ConnClosed?
  }

  predicate LifeEnabled(l: Life, e: LifeEvent) {
    match e
    case Start => !l.started
    case RequestStop => l.started
    case ManagerExit => l.started
    case WriterExit => l.started
    case ReaderExit => l.started
    case CloseRead => l.started && l.stopRequested && l.stop.Waiting?
    case CloseSend => l.stop.ReadClosed? && l.managerDone
    case CloseConn => l.stop.SendClosed? && l.writerDone
    case ClosePool => l.stop.ConnClosed? && l.readerDone
    case DrainEnd => l.stop.Draining?
    case CloseOne(name) => l.stop.ClosingProxies? && name in l.stop.left
    case Finish => l.stop.ClosingProxies? && l.stop.left == {}
  }

  /** `names` are the proxies registered when the stopper turns to them. */
  function LifeNext(l: Life, e: LifeEvent, names: set<string>): Life
    requires LifeEnabled(l, e)
  {
    match e
    case Start => l.(started := true)
    case RequestStop => l.(stopRequested := true)
    case ManagerExit => l.(managerDone := true)
    case WriterExit => l.(writerDone := true)
    case ReaderExit => l.(readerDone := true)
    case CloseRead => l.(stop := ReadClosed)
    case CloseSend => l.(stop := SendClosed)
    case CloseConn => l.(stop := ConnClosed)
    case ClosePool => l.(stop := Draining)
    case DrainEnd => l.(stop := ClosingProxies(names))
    case CloseOne(name) => l.(stop := ClosingProxies(l.stop.left - {name}))
    case Finish => l.(stop := Finished)
  }

  /** Channels close in order: the message channel only after the manager has ended, the pool only
      after manager, writer and reader have. */
  predicate LifeOk(l: Life) {
    && (l.managerDone ==> l.started)
    && (!l.stop.Waiting? ==> l.started && l.stopRequested)
    && (!l.stop.Waiting? && !l.stop.ReadClosed? ==> l.managerDone)
    && (!l.stop.Waiting? && !l.stop.ReadClosed? && !l.stop.SendClosed? ==> l.writerDone)
    && (!PoolOpen(l) ==> l.readerDone)
  }

  // ---------------------------------------------------------------- proxies of one control

  /** A proxy and the number of ports it counts for. */
  datatype Proxy = Proxy(name: string, ports: nat)

  /** What the manager goroutine is in the middle of. */
  datatype ManagerPhase =
    | Idle
    | Running(p: Proxy)   // quota taken, the proxy is being run
    | Adding(p: Proxy)    // running, not yet in the table of all proxies
    | Entering(p: Proxy)  // in that table, not yet among this control's proxies
    | Closing(p: Proxy)   // quota returned, still in the table
    | Dropping(p: Proxy)  // out of the table, still among this control's proxies

  datatype Registry = Registry(mgr: ManagerPhase, proxies: map<string, Proxy>, portsUsed: int)

  datatype ManagerEvent =
    | NewProxy(p: Proxy) | RunFails | RunSucceeds | AddClashes | AddToTable | Enter
    | CloseMessage(name: string) | DropFromTable | DropEntry

  const NO_PROXIES := Registry(Idle, map[], 0)

  /** The port limit does not admit this proxy. */
  predicate OverLimit(r: Registry, limit: nat, p: Proxy) {
    limit > 0 && r.portsUsed + p.ports > limit
  }

  function Charge(limit: nat, n: nat): nat { if limit > 0 then n else 0 }

  predicate ManagerEnabled(r: Registry, e: ManagerEvent) {
    match e
    case NewProxy(p) => r.mgr.Idle?
    case RunFails => r.mgr.Running?
    case RunSucceeds => r.mgr.Running?
    case AddClashes => r.mgr.Adding?
    case AddToTable => r.mgr.Adding?
    case Enter => r.mgr.Entering?
    case CloseMessage(name) => r.mgr.Idle?
    case DropFromTable => r.mgr.Closing?
    case DropEntry => r.mgr.Dropping?
  }

  function ManagerNext(r: Registry, limit: nat, e: ManagerEvent): Registry
    requires ManagerEnabled(r, e)
  {
    match e
    case NewProxy(p) =>
      if OverLimit(r, limit, p) then r
      else r.(portsUsed := r.portsUsed + Charge(limit, p.ports), mgr := Running(p))
    case RunFails => r.(portsUsed := r.portsUsed - Charge(limit, r.mgr.p.ports), mgr := Idle)
    case RunSucceeds => r.(mgr := Adding(r.mgr.p))
    case AddClashes => r.(portsUsed := r.portsUsed - Charge(limit, r.mgr.p.ports), mgr := Idle)
    case AddToTable => r.(mgr := Entering(r.mgr.p))
    case Enter => r.(proxies := r.proxies[r.mgr.p.name := r.mgr.p], mgr := Idle)
    case CloseMessage(name) =>
      if name !in r.proxies then r
      else r.(portsUsed := r.portsUsed - Charge(limit, r.proxies[name].ports), mgr := Closing(r.proxies[name]))
    case DropFromTable => r.(mgr := Dropping(r.mgr.p))
    case DropEntry => r.(proxies := r.proxies - {r.mgr.p.name}, mgr := Idle)
  }

  ghost function Sum(m: map<string, Proxy>): int {
    if m == map[] then 0
    else
      var k :| k in m;
      m[k].ports + Sum(m - {k})
  }

  lemma {:induction false} SumWithout(m: map<string, Proxy>, k: string)
    requires k in m
    ensures Sum(m) == m[k].ports + Sum(m - {k})
    decreases |m|
  {
    var j :| j in m && Sum(m) == m[j].ports + Sum(m - {j});
    if j != k {
      SumWithout(m - {j}, k);
      SumWithout(m - {k}, j);
      assert m - {j} - {k} == m - {k} - {j};
    }
  }

  lemma SumWith(m: map<string, Proxy>, k: string, p: Proxy)
    requires k !in m
    ensures Sum(m[k := p]) == Sum(m) + p.ports
  {
    SumWithout(m[k := p], k);
    assert m[k := p] - {k} == m;
  }

  /** What the counter holds beyond the ports of the registered proxies. */
  function InFlight(mgr: ManagerPhase): int {
    match mgr
    case Idle => 0
    case Running(p) => p.ports
    case Adding(p) => p.ports
    case Entering(p) => p.ports
    case Closing(p) => -(p.ports as int)
    case Dropping(p) => -(p.ports as int)
  }

  /** The names of the table of all proxies that the manager answers for. */
  function Names(r: Registry): set<string> {
    match r.mgr
    case Entering(p) => r.proxies.Keys + {p.name}
    case Dropping(p) => r.proxies.Keys - {p.name}
    case _ => r.proxies.Keys
  }

  ghost predicate Quota(r: Registry, limit: nat) {
    if limit > 0 then r.portsUsed == Sum(r.proxies) + InFlight(r.mgr) && r.portsUsed <= limit
    else r.portsUsed == 0
  }

  ghost predicate Entries(r: Registry) {
    && (forall n | n in r.proxies :: r.proxies[n].name == n)
    && (r.mgr.Entering? ==> r.mgr.p.name !in r.proxies)
    && (r.mgr.Closing? || r.mgr.Dropping? ==>
          r.mgr.p.name in r.proxies && r.proxies[r.mgr.p.name] == r.mgr.p)
  }

  lemma ManagerQuota(r: Registry, limit: nat, e: ManagerEvent)
    requires ManagerEnabled(r, e) && Entries(r) && Quota(r, limit)
    ensures Quota(ManagerNext(r, limit, e), limit)
  {
    match e
    case Enter => SumWith(r.proxies, r.mgr.p.name, r.mgr.p);
    case DropEntry => SumWithout(r.proxies, r.mgr.p.name);
    case _ =>
  }

  /** Between two messages, a new proxy is admitted if and only if there is no limit or the ports of the
      registered proxies and its own together keep it; a proxy that is not admitted changes nothing. */
  lemma AdmittedExactly(r: Registry, limit: nat, p: Proxy)
    requires r.mgr.Idle? && Quota(r, limit)
    ensures var r', fits := ManagerNext(r, limit, NewProxy(p)), limit == 0 || Sum(r.proxies) + p.ports <= limit;
            && (r'.mgr == Running(p) <==> fits)
            && (fits ==> r'.proxies == r.proxies && r'.portsUsed == if limit == 0 then 0 else Sum(r.proxies) + p.ports)
            && (!fits ==> r' == r)
  {
  }

  /** A name is added to the table only when no registered proxy has it; then only the two table
      steps change what the manager answers for. */
  lemma ManagerEntries(r: Registry, limit: nat, e: ManagerEvent)
    requires ManagerEnabled(r, e) && Entries(r)
    requires e.AddToTable? ==> r.mgr.p.name !in r.proxies
    ensures Entries(ManagerNext(r, limit, e))
    ensures Names(ManagerNext(r, limit, e)) ==
            (if e.AddToTable? then Names(r) + {r.mgr.p.name}
             else if e.DropFromTable? then Names(r) - {r.mgr.p.name}
             else Names(r))
  {
  }

  // ---------------------------------------------------------------- work connections of one control

  /** The buffered channel of work connections, what was taken from it and how, and all it took. */
  datatype Pool = Pool(
    poolCount: int, waiting: seq<nat>, handed: seq<nat>, drained: seq<nat>, accepted: multiset<nat>)

  /** `Pass` is a connection that arrives while someone waits for one: it does not enter the buffer. */
  datatype PoolEvent = Put(conn: nat) | Take | Pass(conn: nat) | Drain

  function EmptyPool(poolCount: int): Pool { Pool(poolCount, [], [], [], multiset{}) }

  predicate PoolEnabled(q: Pool, e: PoolEvent) {
    match e
    case Put(conn) => conn !in q.accepted
    case Pass(conn) => conn !in q.accepted && q.waiting == []
    case _ => q.waiting != []
  }

  /** A connection is taken in when the channel is open and has room, otherwise turned away. */
  function PoolNext(q: Pool, e: PoolEvent, open: bool): Pool
    requires PoolEnabled(q, e)
  {
    match e
    case Put(conn) =>
      if open && |q.waiting| < q.poolCount + 10 then
        q.(waiting := q.waiting + [conn], accepted := q.accepted + multiset{conn})
      else q
    case Take => q.(waiting := q.waiting[1..], handed := q.handed + [q.waiting[0]])
    case Pass(conn) => if open then q.(handed := q.handed + [conn], accepted := q.accepted + multiset{conn}) else q
    case Drain => q.(waiting := q.waiting[1..], drained := q.drained + [q.waiting[0]])
  }

  function Everywhere(q: Pool): multiset<nat> {
    multiset(q.waiting) + multiset(q.handed) + multiset(q.drained)
  }

  /** Every accepted connection is waiting, handed out or drained, and in one place only. */
  ghost predicate PoolOk(q: Pool) {
    && |q.waiting| <= q.poolCount + 10
    && Everywhere(q) == q.accepted
    && forall x | x in q.accepted :: q.accepted[x] == 1
  }

  /** A connection never seen before is now in the buffer or handed out. */
  lemma ArrivalKeeps(q: Pool, e: PoolEvent)
    requires PoolEnabled(q, e) && PoolOk(q) && (e.Put? || e.Pass?)
    ensures PoolOk(PoolNext(q, e, true))
  {
    assert q.accepted[e.conn] == 0;
  }

  /** The first connection of the buffer has gone to another place. */
  lemma DepartureKeeps(q: Pool, e: PoolEvent, open: bool)
    requires PoolEnabled(q, e) && PoolOk(q) && (e.Take? || e.Drain?)
    ensures PoolOk(PoolNext(q, e, open))
  {
    assert q.waiting == [q.waiting[0]] + q.waiting[1..];
  }

  lemma PoolKeeps(q: Pool, e: PoolEvent, open: bool)
    requires PoolEnabled(q, e) && PoolOk(q)
    ensures PoolOk(PoolNext(q, e, open))
  {
    if e.Take? || e.Drain? {
      DepartureKeeps(q, e, open);
    } else if open {
      ArrivalKeeps(q, e);
    }
  }

  /** A connection that arrives is taken in if and only if the channel is open and has a free place, at
      the end of the buffer; and the first of the buffer is handed out or drained first. */
  lemma PlacedExactly(q: Pool, conn: nat, open: bool)
    requires conn !in q.accepted
    ensures var q' := PoolNext(q, Put(conn), open);
            && (conn in q'.accepted <==> open && |q.waiting| < q.poolCount + 10)
            && q'.waiting == (if conn in q'.accepted then q.waiting + [conn] else q.waiting)
            && q'.handed == q.handed && q'.drained == q.drained
    ensures q.waiting != [] ==>
              && PoolNext(q, Take, open).handed == q.handed + [q.waiting[0]]
              && PoolNext(q, Drain, open).drained == q.drained + [q.waiting[0]]
  {
  }

  /** `qs` are the states of an open pool through `es`, in which nothing is drained. */
  ghost predicate PoolRun(qs: seq<Pool>, es: seq<PoolEvent>) {
    && |qs| == |es| + 1 && qs[0] == EmptyPool(qs[0].poolCount)
    && forall i | 0 <= i < |es| ::
         PoolEnabled(qs[i], es[i]) && !es[i].Drain? && qs[i + 1] == PoolNext(qs[i], es[i], true)
  }

  /** The connection that was taken in with `e`, after which the pool is `q`, if any. */
  function TakenWith(q: Pool, e: PoolEvent): seq<nat> {
    match e
    case Put(conn) => if conn in q.accepted then [conn] else []
    case Pass(conn) => [conn]
    case _ => []
  }

  /** The connections that were taken in with the first `i` events, in the order in which they arrived. */
  function Arrived(qs: seq<Pool>, es: seq<PoolEvent>, i: nat): seq<nat>
    requires i <= |es| < |qs|
  {
    if i == 0 then [] else Arrived(qs, es, i - 1) + TakenWith(qs[i], es[i - 1])
  }

  lemma ServedStep(q: Pool, e: PoolEvent)
    requires PoolEnabled(q, e) && !e.Drain?
    ensures var q' := PoolNext(q, e, true); q'.handed + q'.waiting == q.handed + q.waiting + TakenWith(q', e)
  {
    if e.Put? { PlacedExactly(q, e.conn, true); }
    if e.Take? { assert q.waiting == [q.waiting[0]] + q.waiting[1..]; }
  }

  /** First come, first served: what was handed out and what waits, one after the other, is what came. */
  lemma {:induction false} ServedInOrder(qs: seq<Pool>, es: seq<PoolEvent>, i: nat)
    requires PoolRun(qs, es) && i <= |es|
    ensures qs[i].handed + qs[i].waiting == Arrived(qs, es, i)
  {
    if i > 0 {
      ServedInOrder(qs, es, i - 1);
      ServedStep(qs[i - 1], es[i - 1]);
    }
  }

  // ---------------------------------------------------------------- one control

  datatype Ctl = Ctl(runId: string, pred: Option<nat>, life: Life, reg: Registry, pool: Pool)

  datatype Event = OfLife(l: LifeEvent) | OfManager(m: ManagerEvent) | OfPool(q: PoolEvent)

  function NewCtl(runId: string, pred: Option<nat>, poolCount: int): Ctl
    requires poolCount + 10 >= 0
  {
    Ctl(runId, pred, NOT_STARTED, NO_PROXIES, EmptyPool(poolCount))
  }

  predicate Active(c: Ctl) { c.life.started && !c.life.stop.Finished? }

  predicate Done(c: Ctl) { c.life.stop.Finished? }

  /** The guard of a step, as far as the control itself decides it. */
  predicate CtlEnabled(c: Ctl, e: Event) {
    match e
    case OfLife(l) =>
      && LifeEnabled(c.life, l)
      && (l.ManagerExit? ==> c.reg.mgr.Idle?)
      && (l.DrainEnd? ==> c.pool.waiting == [])
    case OfManager(m) => ManagerEnabled(c.reg, m) && c.life.started && !c.life.managerDone
    case OfPool(q) => PoolEnabled(c.pool, q) && (q.Drain? ==> c.life.stop.Draining?)
  }

  function CtlNext(c: Ctl, limit: nat, e: Event): Ctl
    requires CtlEnabled(c, e)
  {
    match e
    case OfLife(l) => c.(life := LifeNext(c.life, l, c.reg.proxies.Keys))
    case OfManager(m) => c.(reg := ManagerNext(c.reg, limit, m))
    case OfPool(q) => c.(pool := PoolNext(c.pool, q, PoolOpen(c.life)))
  }

  /** The names of the table of all proxies that this control answers for. */
  function OwnedNames(c: Ctl): set<string> {
    match c.life.stop
    case ClosingProxies(left) => left
    case Finished => {}
    case _ => Names(c.reg)
  }

  /** What the phases of the shutdown say about proxies and connections. */
  predicate Between(c: Ctl) {
    && (c.life.managerDone ==> c.reg.mgr.Idle?)
    && (c.life.started || (c.reg.mgr.Idle? && c.reg.proxies == map[]))
    && (c.life.stop.ClosingProxies? || c.life.stop.Finished? ==> c.pool.waiting == [])
    && (c.pool.drained != [] ==> !PoolOpen(c.life))
  }

  ghost predicate CtlOk(c: Ctl, limit: nat) {
    LifeOk(c.life) && Entries(c.reg) && Quota(c.reg, limit) && PoolOk(c.pool) && Between(c)
  }

  /** How a step changes the table of all proxies. */
  datatype Effect = Nothing | Gains(name: string) | Loses(name: string)

  function EffectOf(c: Ctl, e: Event): Effect
    requires CtlEnabled(c, e)
  {
    if e.OfManager? && e.m.AddToTable? then Gains(c.reg.mgr.p.name)
    else if e.OfManager? && e.m.DropFromTable? then Loses(c.reg.mgr.p.name)
    else if e.OfLife? && e.l.CloseOne? then Loses(e.l.name)
    else Nothing
  }

  function Apply(names: set<string>, f: Effect): set<string> {
    match f
    case Nothing => names
    case Gains(n) => names + {n}
    case Loses(n) => names - {n}
  }

  lemma LifeKeeps(c: Ctl, limit: nat, l: LifeEvent)
    requires CtlEnabled(c, OfLife(l)) && CtlOk(c, limit)
    ensures CtlOk(CtlNext(c, limit, OfLife(l)), limit)
    ensures OwnedNames(CtlNext(c, limit, OfLife(l))) == Apply(OwnedNames(c), EffectOf(c, OfLife(l)))
  {
  }

  lemma ManagerKeeps(c: Ctl, limit: nat, m: ManagerEvent)
    requires CtlEnabled(c, OfManager(m)) && CtlOk(c, limit)
    requires m.AddToTable? ==> c.reg.mgr.p.name !in OwnedNames(c)
    ensures CtlOk(CtlNext(c, limit, OfManager(m)), limit)
    ensures OwnedNames(CtlNext(c, limit, OfManager(m))) == Apply(OwnedNames(c), EffectOf(c, OfManager(m)))
  {
    assert OwnedNames(c) == Names(c.reg);
    ManagerQuota(c.reg, limit, m);
    ManagerEntries(c.reg, limit, m);
  }

  /** Another pool in order changes nothing else. */
  lemma PoolCtlOk(c: Ctl, limit: nat, pool: Pool)
    requires CtlOk(c, limit) && PoolOk(pool) && Between(c.(pool := pool))
    ensures CtlOk(c.(pool := pool), limit) && OwnedNames(c.(pool := pool)) == OwnedNames(c)
  {
  }

  lemma ConnectionKeeps(c: Ctl, limit: nat, q: PoolEvent)
    requires CtlEnabled(c, OfPool(q)) && CtlOk(c, limit)
    ensures CtlOk(CtlNext(c, limit, OfPool(q)), limit)
    ensures OwnedNames(CtlNext(c, limit, OfPool(q))) == OwnedNames(c)
  {
    PoolKeeps(c.pool, q, PoolOpen(c.life));
    PoolBetween(c, q);
    PoolCtlOk(c, limit, PoolNext(c.pool, q, PoolOpen(c.life)));
  }

  /** Connections arrive and are drained only in the phases meant for it. */
  lemma PoolBetween(c: Ctl, q: PoolEvent)
    requires CtlEnabled(c, OfPool(q)) && Between(c)
    ensures Between(c.(pool := PoolNext(c.pool, q, PoolOpen(c.life))))
  {
  }

  /** Every step of a control keeps its invariant, and what it answers for in the table changes as
      the table does. */
  lemma CtlKeeps(c: Ctl, limit: nat, e: Event)
    requires CtlEnabled(c, e) && CtlOk(c, limit)
    requires EffectOf(c, e).Gains? ==> EffectOf(c, e).name !in OwnedNames(c)
    ensures CtlOk(CtlNext(c, limit, e), limit)
    ensures OwnedNames(CtlNext(c, limit, e)) == Apply(OwnedNames(c), EffectOf(c, e))
  {
    match e
    case OfLife(l) => LifeKeeps(c, limit, l);
    case OfManager(m) => ManagerKeeps(c, limit, m);
    case OfPool(q) => ConnectionKeeps(c, limit, q);
  }

  // ---------------------------------------------------------------- the server

  /** All controls ever created, oldest first; the latest control of each run id; and for each
      proxy name in use the control that registered it. */
  datatype Server = Server(ctls: seq<Ctl>, byRunId: map<string, nat>, table: map<string, nat>)

  datatype Step = Login(runId: string, poolCount: int) | Delete(c: nat) | At(c: nat, e: Event)

  predicate PredDone(s: Server, c: nat)
    requires c < |s.ctls|
  {
    var pred := s.ctls[c].pred;
    pred.Some? ==> pred.value < |s.ctls| && Done(s.ctls[pred.value])
  }

  /** A control starts when the one it replaced is done; a new name clashes exactly when the table
      has it. A login whose pool would have a negative number of places ends the
      server, so no step follows it. */
  predicate Enabled(s: Server, step: Step) {
    match step
    case Login(runId, poolCount) =>
      poolCount + 10 >= 0 && (runId in s.byRunId ==> s.byRunId[runId] < |s.ctls|)
    case Delete(c) => c < |s.ctls| && Done(s.ctls[c])
    case At(c, e) =>
      && c < |s.ctls| && CtlEnabled(s.ctls[c], e)
      && (e == OfLife(Start) ==> PredDone(s, c))
      && (e == OfManager(AddClashes) ==> s.ctls[c].reg.mgr.p.name in s.table)
      && (e == OfManager(AddToTable) ==> s.ctls[c].reg.mgr.p.name !in s.table)
  }

  function Requested(c: Ctl): Ctl { c.(life := c.life.(stopRequested := true)) }

  function ApplyToTable(table: map<string, nat>, c: nat, f: Effect): map<string, nat> {
    match f
    case Nothing => table
    case Gains(n) => table[n := c]
    case Loses(n) => table - {n}
  }

  function Next(s: Server, limit: nat, step: Step): Server
    requires Enabled(s, step)
  {
    match step
    case Login(runId, poolCount) =>
      if runId in s.byRunId then
        var j := s.byRunId[runId];
        s.(ctls := s.ctls[j := Requested(s.ctls[j])] + [NewCtl(runId, Some(j), poolCount)],
           byRunId := s.byRunId[runId := |s.ctls|])
      else
        s.(ctls := s.ctls + [NewCtl(runId, None, poolCount)], byRunId := s.byRunId[runId := |s.ctls|])
    case Delete(c) =>
      var runId := s.ctls[c].runId;
      if runId in s.byRunId && s.byRunId[runId] == c then s.(byRunId := s.byRunId - {runId}) else s
    case At(c, e) =>
      s.(ctls := s.ctls[c := CtlNext(s.ctls[c], limit, e)],
         table := ApplyToTable(s.table, c, EffectOf(s.ctls[c], e)))
  }

  /** A login adds a control that has done nothing yet as the latest of its run id, and tells the one it
      replaces, if any, to stop; nothing else changes. */
  lemma LoginMeans(s: Server, limit: nat, runId: string, poolCount: int)
    requires Enabled(s, Login(runId, poolCount))
    ensures var s', n := Next(s, limit, Login(runId, poolCount)), |s.ctls|;
            && |s'.ctls| == n + 1 && s'.byRunId == s.byRunId[runId := n] && s'.table == s.table
            && s'.ctls[n].runId == runId && s'.ctls[n].pool == Pool(poolCount, [], [], [], multiset{})
            && s'.ctls[n].reg == Registry(Idle, map[], 0) && !s'.ctls[n].life.started
            && s'.ctls[n].pred == (if runId in s.byRunId then Some(s.byRunId[runId]) else None)
            && (forall k | 0 <= k < n && s'.ctls[n].pred != Some(k) :: s'.ctls[k] == s.ctls[k])
            && (runId in s.byRunId ==>
                  var j := s.byRunId[runId];
                  s'.ctls[j] == s.ctls[j].(life := s.ctls[j].life.(stopRequested := true)))
  {
  }

  /** When a control is done, its entry goes if it is still its own, and nothing else changes. */
  lemma DeleteMeans(s: Server, limit: nat, c: nat)
    requires Enabled(s, Delete(c))
    ensures var s', r := Next(s, limit, Delete(c)), s.ctls[c].runId;
            && s'.ctls == s.ctls && s'.table == s.table
            && (r in s'.byRunId <==> r in s.byRunId && s.byRunId[r] != c)
            && forall q | q in s.byRunId && (q != r || s.byRunId[q] != c) ::
                 q in s'.byRunId && s'.byRunId[q] == s.byRunId[q]
  {
  }

  // ---------------------------------------------------------------- replacement of controls

  /** What the replacement protocol sees of a control. */
  datatype Link = Link(runId: string, pred: Option<nat>, started: bool, done: bool)

  function LinkOf(c: Ctl): Link { Link(c.runId, c.pred, c.life.started, Done(c)) }

  function Links(ctls: seq<Ctl>): (ls: seq<Link>)
    ensures |ls| == |ctls| && forall k | 0 <= k < |ls| :: ls[k] == LinkOf(ctls[k])
  {
    seq(|ctls|, k requires 0 <= k < |ctls| => LinkOf(ctls[k]))
  }

  /** All controls of the run id in `ls` are done. */
  predicate AllDone(ls: seq<Link>, runId: string) {
    forall i | 0 <= i < |ls| && ls[i].runId == runId :: ls[i].done
  }

  /** `j` is the latest control of its run id in `ls`. */
  predicate Latest(ls: seq<Link>, j: int, runId: string) {
    0 <= j < |ls| && ls[j].runId == runId && forall i | j < i < |ls| :: ls[i].runId != runId
  }

  /** A control replaces the latest one of its run id before it, and once it has started all earlier
      ones are done; a control that replaces none comes after done ones only. */
  predicate ChainOk(ls: seq<Link>, k: nat)
    requires k < |ls|
  {
    && (ls[k].pred.Some? ==> Latest(ls[..k], ls[k].pred.value, ls[k].runId))
    && (ls[k].pred.None? || ls[k].started ==> AllDone(ls[..k], ls[k].runId))
  }

  /** The map holds the latest control of a run id; without an entry all of them are done. */
  predicate MapOk(ls: seq<Link>, byRunId: map<string, nat>, runId: string) {
    if runId in byRunId then Latest(ls, byRunId[runId], runId) else AllDone(ls, runId)
  }

  ghost predicate LinksOk(ls: seq<Link>, byRunId: map<string, nat>) {
    && (forall k | 0 <= k < |ls| :: ChainOk(ls, k))
    && (forall k | 0 <= k < |ls| :: ls[k].done ==> ls[k].started)
    && (forall r :: MapOk(ls, byRunId, r))
  }

  /** Once the control that `k` replaced is done, every earlier control of its run id is. */
  lemma EarlierDone(ls: seq<Link>, byRunId: map<string, nat>, k: nat)
    requires LinksOk(ls, byRunId) && k < |ls|
    requires ls[k].pred.Some? ==> ls[k].pred.value < |ls| && ls[ls[k].pred.value].done
    ensures AllDone(ls[..k], ls[k].runId)
  {
    assert ChainOk(ls, k);
    if ls[k].pred.Some? {
      var j := ls[k].pred.value;
      assert Latest(ls[..k], j, ls[k].runId) && ChainOk(ls, j);
      forall i | 0 <= i < k && ls[i].runId == ls[k].runId ensures ls[i].done {
        assert ls[..k][i] == ls[i] && ls[..k][j] == ls[j];
        if i < j { assert ls[..j][i] == ls[i]; }
      }
    }
  }

  /** `k` changed from `a`: it keeps its identity, what is done stays done, and it starts only when
      the control it replaced is done. */
  predicate Grows(ls: seq<Link>, k: nat, b: Link)
    requires k < |ls|
  {
    && b.runId == ls[k].runId && b.pred == ls[k].pred
    && (ls[k].done ==> b.done) && (ls[k].started ==> b.started) && (b.done ==> b.started)
    && (b.started && !ls[k].started && b.pred.Some? ==> b.pred.value < |ls| && ls[b.pred.value].done)
  }

  lemma GrowsChain(ls: seq<Link>, byRunId: map<string, nat>, k: nat, b: Link, i: nat)
    requires LinksOk(ls, byRunId) && k < |ls| && Grows(ls, k, b) && i < |ls|
    ensures ChainOk(ls[k := b], i)
  {
    var ls' := ls[k := b];
    assert ChainOk(ls, i);
    assert forall j | 0 <= j < i :: ls'[..i][j] == ls'[j] && ls[..i][j] == ls[j];
    if i == k && b.started && !ls[k].started { EarlierDone(ls, byRunId, k); }
  }

  lemma GrowsMap(ls: seq<Link>, byRunId: map<string, nat>, k: nat, b: Link, r: string)
    requires k < |ls| && Grows(ls, k, b) && MapOk(ls, byRunId, r)
    ensures MapOk(ls[k := b], byRunId, r)
  {
    assert forall j | 0 <= j < |ls| :: ls[k := b][j].runId == ls[j].runId && (ls[j].done ==> ls[k := b][j].done);
  }

  lemma GrowsKeeps(ls: seq<Link>, byRunId: map<string, nat>, k: nat, b: Link)
    requires LinksOk(ls, byRunId) && k < |ls| && Grows(ls, k, b)
    ensures LinksOk(ls[k := b], byRunId)
  {
    var ls' := ls[k := b];
    forall i | 0 <= i < |ls| ensures ChainOk(ls', i) { GrowsChain(ls, byRunId, k, b, i); }
    forall r ensures MapOk(ls', byRunId, r) { GrowsMap(ls, byRunId, k, b, r); }
  }

  /** A new control joins the chain of its run id. */
  lemma JoinsKeeps(ls: seq<Link>, byRunId: map<string, nat>, b: Link)
    requires LinksOk(ls, byRunId) && !b.started && !b.done
    requires b.pred == (if b.runId in byRunId then Some(byRunId[b.runId]) else None)
    ensures LinksOk(ls + [b], byRunId[b.runId := |ls|])
  {
    var ls' := ls + [b];
    assert MapOk(ls, byRunId, b.runId);
    assert ls'[..|ls|] == ls;
    forall i | 0 <= i < |ls'| ensures ChainOk(ls', i) {
      if i < |ls| { assert ChainOk(ls, i) && ls'[..i] == ls[..i]; }
    }
    var m := byRunId[b.runId := |ls|];
    forall r ensures MapOk(ls', m, r) { assert MapOk(ls, byRunId, r); }
  }

  /** A done control takes its own entry out. */
  lemma LeavesKeeps(ls: seq<Link>, byRunId: map<string, nat>, k: nat)
    requires LinksOk(ls, byRunId) && k < |ls| && ls[k].done
    requires ls[k].runId in byRunId && byRunId[ls[k].runId] == k
    ensures LinksOk(ls, byRunId - {ls[k].runId})
  {
    var r := ls[k].runId;
    assert ChainOk(ls, k) && MapOk(ls, byRunId, r);
    assert AllDone(ls, r) by {
      forall i | 0 <= i < |ls| && ls[i].runId == r ensures ls[i].done {
        if i < k { assert ls[..k][i] == ls[i]; }
      }
    }
    forall q ensures MapOk(ls, byRunId - {r}, q) { assert MapOk(ls, byRunId, q); }
  }

  // ---------------------------------------------------------------- the table of all proxies

  function Owned(ctls: seq<Ctl>): (os: seq<set<string>>)
    ensures |os| == |ctls| && forall k | 0 <= k < |os| :: os[k] == OwnedNames(ctls[k])
  {
    seq(|ctls|, k requires 0 <= k < |ctls| => OwnedNames(ctls[k]))
  }

  /** The table gives a name to a control exactly when that control answers for it. */
  predicate TableOk(os: seq<set<string>>, table: map<string, nat>) {
    && (forall n | n in table :: table[n] < |os| && n in os[table[n]])
    && (forall k, n | 0 <= k < |os| && n in os[k] :: n in table && table[n] == k)
  }

  lemma EffectKeeps(os: seq<set<string>>, table: map<string, nat>, c: nat, f: Effect)
    requires TableOk(os, table) && c < |os|
    requires f.Gains? ==> f.name !in table
    requires f.Loses? ==> f.name in os[c]
    ensures TableOk(os[c := Apply(os[c], f)], ApplyToTable(table, c, f))
  {
    var os', table' := os[c := Apply(os[c], f)], ApplyToTable(table, c, f);
    forall n | n in table' ensures table'[n] < |os'| && n in os'[table'[n]] {
      assert n in table ==> n in os[table[n]];
    }
    forall k, n | 0 <= k < |os'| && n in os'[k] ensures n in table' && table'[n] == k {
      assert n in os[k] ==> n in table && table[n] == k;
    }
  }

  // ---------------------------------------------------------------- invariant of the server

  ghost predicate Inv(s: Server, limit: nat) {
    && (forall k | 0 <= k < |s.ctls| :: CtlOk(s.ctls[k], limit))
    && LinksOk(Links(s.ctls), s.byRunId)
    && TableOk(Owned(s.ctls), s.table)
  }

  lemma CtlGrows(c: Ctl, limit: nat, e: Event)
    requires CtlEnabled(c, e) && LifeOk(c.life)
    ensures var a, b := LinkOf(c), LinkOf(CtlNext(c, limit, e));
            && b.runId == a.runId && b.pred == a.pred && (a.done ==> b.done) && (a.started ==> b.started)
            && (b.done ==> b.started)
            && (b.started && !a.started ==> e == OfLife(Start))
  {
  }

  lemma EffectIsOwn(c: Ctl, limit: nat, e: Event)
    requires CtlEnabled(c, e) && CtlOk(c, limit)
    ensures EffectOf(c, e).Loses? ==> EffectOf(c, e).name in OwnedNames(c)
  {
  }

  /** Control `c` becomes `b`, and the table changes by `f`. */
  lemma ReplaceKeeps(s: Server, limit: nat, c: nat, b: Ctl, f: Effect)
    requires Inv(s, limit) && c < |s.ctls| && CtlOk(b, limit)
    requires Grows(Links(s.ctls), c, LinkOf(b))
    requires f.Gains? ==> f.name !in s.table
    requires f.Loses? ==> f.name in OwnedNames(s.ctls[c])
    requires OwnedNames(b) == Apply(OwnedNames(s.ctls[c]), f)
    ensures Inv(s.(ctls := s.ctls[c := b], table := ApplyToTable(s.table, c, f)), limit)
  {
    var ctls' := s.ctls[c := b];
    GrowsKeeps(Links(s.ctls), s.byRunId, c, LinkOf(b));
    assert Links(ctls') == Links(s.ctls)[c := LinkOf(b)];
    EffectKeeps(Owned(s.ctls), s.table, c, f);
    assert Owned(ctls') == Owned(s.ctls)[c := OwnedNames(b)];
  }

  lemma AtKeeps(s: Server, limit: nat, c: nat, e: Event)
    requires Inv(s, limit) && Enabled(s, At(c, e))
    ensures Inv(Next(s, limit, At(c, e)), limit)
  {
    var f := EffectOf(s.ctls[c], e);
    assert f.Gains? ==> f.name !in Owned(s.ctls)[c];
    CtlKeeps(s.ctls[c], limit, e);
    CtlGrows(s.ctls[c], limit, e);
    EffectIsOwn(s.ctls[c], limit, e);
    ReplaceKeeps(s, limit, c, CtlNext(s.ctls[c], limit, e), f);
  }

  lemma NewCtlOk(runId: string, pred: Option<nat>, poolCount: int, limit: nat)
    requires poolCount + 10 >= 0
    ensures CtlOk(NewCtl(runId, pred, poolCount), limit)
    ensures OwnedNames(NewCtl(runId, pred, poolCount)) == {}
  {
  }

  lemma RequestedOk(c: Ctl, limit: nat)
    requires CtlOk(c, limit)
    ensures CtlOk(Requested(c), limit) && OwnedNames(Requested(c)) == OwnedNames(c)
    ensures LinkOf(Requested(c)) == LinkOf(c)
  {
  }

  /** A server with one more control, which owns nothing. */
  lemma AppendKeeps(ctls: seq<Ctl>, table: map<string, nat>, limit: nat, c: Ctl)
    requires forall k | 0 <= k < |ctls| :: CtlOk(ctls[k], limit)
    requires TableOk(Owned(ctls), table) && CtlOk(c, limit) && OwnedNames(c) == {}
    ensures forall k | 0 <= k <= |ctls| :: CtlOk((ctls + [c])[k], limit)
    ensures TableOk(Owned(ctls + [c]), table)
    ensures Links(ctls + [c]) == Links(ctls) + [LinkOf(c)]
  {
    assert Owned(ctls + [c]) == Owned(ctls) + [{}];
  }

  lemma RequestKeeps(s: Server, limit: nat, j: nat)
    requires Inv(s, limit) && j < |s.ctls|
    ensures var ctls' := s.ctls[j := Requested(s.ctls[j])];
            Inv(s.(ctls := ctls'), limit) && Links(ctls') == Links(s.ctls)
  {
    var ctls' := s.ctls[j := Requested(s.ctls[j])];
    RequestedOk(s.ctls[j], limit);
    assert Links(ctls') == Links(s.ctls);
    assert Owned(ctls') == Owned(s.ctls);
  }

  /** A login is taken in any state, as long as its pool would not have a negative number of places. */
  lemma LoginAlways(s: Server, limit: nat, runId: string, poolCount: int)
    requires Inv(s, limit)
    ensures Enabled(s, Login(runId, poolCount)) <==> poolCount >= -10
  {
    assert MapOk(Links(s.ctls), s.byRunId, runId);
  }

  lemma LoginKeeps(s: Server, limit: nat, runId: string, poolCount: int)
    requires Inv(s, limit) && Enabled(s, Login(runId, poolCount))
    ensures Inv(Next(s, limit, Login(runId, poolCount)), limit)
  {
    var pred := if runId in s.byRunId then Some(s.byRunId[runId]) else None;
    var t := if pred.Some? then s.(ctls := s.ctls[pred.value := Requested(s.ctls[pred.value])]) else s;
    if pred.Some? { RequestKeeps(s, limit, pred.value); }
    var c := NewCtl(runId, pred, poolCount);
    NewCtlOk(runId, pred, poolCount, limit);
    AppendKeeps(t.ctls, t.table, limit, c);
    JoinsKeeps(Links(t.ctls), t.byRunId, LinkOf(c));
  }

  lemma DeleteKeeps(s: Server, limit: nat, c: nat)
    requires Inv(s, limit) && Enabled(s, Delete(c))
    ensures Inv(Next(s, limit, Delete(c)), limit)
  {
    var r := s.ctls[c].runId;
    if r in s.byRunId && s.byRunId[r] == c { LeavesKeeps(Links(s.ctls), s.byRunId, c); }
  }

  lemma StepKeeps(s: Server, limit: nat, step: Step)
    requires Inv(s, limit) && Enabled(s, step)
    ensures Inv(Next(s, limit, step), limit)
  {
    match step
    case Login(runId, poolCount) => LoginKeeps(s, limit, runId, poolCount);
    case Delete(c) => DeleteKeeps(s, limit, c);
    case At(c, e) => AtKeeps(s, limit, c, e);
  }

  // ---------------------------------------------------------------- runs

  const INIT := Server([], map[], map[])

  ghost predicate Behavior(ss: seq<Server>, steps: seq<Step>, limit: nat) {
    && |ss| == |steps| + 1 && ss[0] == INIT
    && forall i | 0 <= i < |steps| :: Enabled(ss[i], steps[i]) && ss[i + 1] == Next(ss[i], limit, steps[i])
  }

  lemma {:induction false} RunInv(ss: seq<Server>, steps: seq<Step>, limit: nat, i: nat)
    requires Behavior(ss, steps, limit) && i < |ss|
    ensures Inv(ss[i], limit)
  {
    if i > 0 {
      RunInv(ss, steps, limit, i - 1);
      StepKeeps(ss[i - 1], limit, steps[i - 1]);
    }
  }

  /** In every reachable state at most one control of a run id is between its start and its end;
      a map entry is the latest control added, and a run id without entry has only ended controls. */
  lemma OneActivePerRunId(ss: seq<Server>, steps: seq<Step>, limit: nat, i: nat)
    requires Behavior(ss, steps, limit) && i < |ss|
    ensures var s := ss[i];
            && (forall a, b | 0 <= a < b < |s.ctls| && s.ctls[a].runId == s.ctls[b].runId ::
                  !(Active(s.ctls[a]) && Active(s.ctls[b])))
            && (forall a | 0 <= a < |s.ctls| ::
                  var r := s.ctls[a].runId;
                  if r in s.byRunId then a <= s.byRunId[r] < |s.ctls| && s.ctls[s.byRunId[r]].runId == r
                  else Done(s.ctls[a]))
  {
    RunInv(ss, steps, limit, i);
    var s := ss[i];
    var ls := Links(s.ctls);
    forall a, b | 0 <= a < b < |s.ctls| && s.ctls[a].runId == s.ctls[b].runId
      ensures !(Active(s.ctls[a]) && Active(s.ctls[b]))
    {
      assert ChainOk(ls, b) && ls[..b][a] == ls[a];
    }
    forall a | 0 <= a < |s.ctls|
      ensures var r := s.ctls[a].runId;
              if r in s.byRunId then a <= s.byRunId[r] < |s.ctls| && s.ctls[s.byRunId[r]].runId == r
              else Done(s.ctls[a])
    {
      assert MapOk(ls, s.byRunId, ls[a].runId);
    }
  }

  lemma OwnerActive(c: Ctl, limit: nat, n: string)
    requires CtlOk(c, limit) && n in OwnedNames(c)
    ensures Active(c)
  {
  }

  /** In every reachable state a name of the table belongs to exactly one control, which is not
      done; and once a control has started, no earlier control of its run id has a name left. */
  lemma NamesHaveOneLiveOwner(ss: seq<Server>, steps: seq<Step>, limit: nat, i: nat)
    requires Behavior(ss, steps, limit) && i < |ss|
    ensures var s := ss[i];
            && (forall n | n in s.table ::
                  && s.table[n] < |s.ctls| && Active(s.ctls[s.table[n]]) && n in OwnedNames(s.ctls[s.table[n]])
                  && forall k | 0 <= k < |s.ctls| && n in OwnedNames(s.ctls[k]) :: k == s.table[n])
            && (forall k, n | 0 <= k < |s.ctls| && s.ctls[k].life.started && n in s.table
                              && s.ctls[s.table[n]].runId == s.ctls[k].runId :: s.table[n] >= k)
  {
    RunInv(ss, steps, limit, i);
    var s := ss[i];
    var ls, os := Links(s.ctls), Owned(s.ctls);
    forall n | n in s.table
      ensures s.table[n] < |s.ctls| && Active(s.ctls[s.table[n]]) && n in OwnedNames(s.ctls[s.table[n]])
    {
      assert n in os[s.table[n]];
      OwnerActive(s.ctls[s.table[n]], limit, n);
    }
    forall n, k | n in s.table && 0 <= k < |s.ctls| && n in OwnedNames(s.ctls[k]) ensures k == s.table[n] {
      assert n in os[k];
    }
    forall k, n | 0 <= k < |s.ctls| && s.ctls[k].life.started && n in s.table
                  && s.ctls[s.table[n]].runId == s.ctls[k].runId
      ensures s.table[n] >= k
    {
      var j := s.table[n];
      assert ChainOk(ls, k);
      assert forall i | 0 <= i < k :: ls[..k][i] == ls[i];
    }
  }

  /** With a port limit, whenever the manager has handled a message completely the counter is the
      sum of the ports of the control's proxies; it never exceeds the limit in between either. */
  lemma QuotaKept(ss: seq<Server>, steps: seq<Step>, limit: nat, i: nat, k: nat)
    requires Behavior(ss, steps, limit) && i < |ss| && k < |ss[i].ctls| && limit > 0
    ensures var r := ss[i].ctls[k].reg;
            r.portsUsed <= limit && (r.mgr.Idle? ==> r.portsUsed == Sum(r.proxies))
  {
    RunInv(ss, steps, limit, i);
    assert CtlOk(ss[i].ctls[k], limit);
  }

  /** In every reachable state a control that is between two messages admits a proxy exactly when the
      ports of its registered proxies leave room for it. */
  lemma LimitExact(ss: seq<Server>, steps: seq<Step>, limit: nat, i: nat, k: nat, p: Proxy)
    requires Behavior(ss, steps, limit) && i < |ss| && k < |ss[i].ctls|
    requires Enabled(ss[i], At(k, OfManager(NewProxy(p))))
    ensures var r, r' := ss[i].ctls[k].reg, Next(ss[i], limit, At(k, OfManager(NewProxy(p)))).ctls[k].reg;
            r'.mgr == Running(p) <==> limit == 0 || Sum(r.proxies) + p.ports <= limit
  {
    RunInv(ss, steps, limit, i);
    assert CtlOk(ss[i].ctls[k], limit);
    AdmittedExactly(ss[i].ctls[k].reg, limit, p);
  }

  /** Work connections: the pool never holds more than the pool count plus ten; each accepted connection is in exactly
      one of pool, handed out and drained, once; none is drained before the pool closes, and when the
      control is done none is left in it. The message channel closes only after the manager has
      ended, the pool only after manager, writer and reader have. */
  lemma ConnectionsConserved(ss: seq<Server>, steps: seq<Step>, limit: nat, i: nat, k: nat)
    requires Behavior(ss, steps, limit) && i < |ss| && k < |ss[i].ctls|
    ensures var l, q := ss[i].ctls[k].life, ss[i].ctls[k].pool;
            && |q.waiting| <= q.poolCount + 10
            && (forall x | x in q.accepted ::
                  multiset(q.waiting)[x] + multiset(q.handed)[x] + multiset(q.drained)[x] == 1)
            && (forall x | x in q.waiting || x in q.handed || x in q.drained :: x in q.accepted)
            && (q.drained != [] ==> !PoolOpen(l))
            && (l.stop.Finished? ==> q.waiting == [])
            && (!l.stop.Waiting? && !l.stop.ReadClosed? ==> l.managerDone)
            && (!PoolOpen(l) ==> l.managerDone && l.writerDone && l.readerDone)
  {
    RunInv(ss, steps, limit, i);
    var q := ss[i].ctls[k].pool;
    assert CtlOk(ss[i].ctls[k], limit);
    var all := Everywhere(q);
    forall x | x in q.accepted
      ensures multiset(q.waiting)[x] + multiset(q.handed)[x] + multiset(q.drained)[x] == 1
    {
      assert all[x] == 1;
    }
    forall x | x in q.waiting || x in q.handed || x in q.drained ensures x in q.accepted {
      assert x in all;
    }
  }

  // ---------------------------------------------------------------- nothing waits for ever

  /** `steps` lead from `s` to `s'`, each enabled when it is taken. */
  predicate Runs(s: Server, limit: nat, steps: seq<Step>, s': Server)
    decreases |steps|
  {
    if steps == [] then s' == s
    else Enabled(s, steps[0]) && Runs(Next(s, limit, steps[0]), limit, steps[1..], s')
  }

  lemma {:induction false} RunsOn(s: Server, limit: nat, a: seq<Step>, s': Server, b: seq<Step>, s'': Server)
    requires Runs(s, limit, a, s') && Runs(s', limit, b, s'')
    ensures Runs(s, limit, a + b, s'')
    decreases |a|
  {
    if a == [] {
      assert a + b == b;
    } else {
      assert (a + b)[1..] == a[1..] + b;
      RunsOn(Next(s, limit, a[0]), limit, a[1..], s', b, s'');
    }
  }

  /** How many phases of the shutdown are left. */
  function PhasesLeft(c: Ctl): nat {
    match c.life.stop
    case Waiting => 6
    case ReadClosed => 5
    case SendClosed => 4
    case ConnClosed => 3
    case Draining => 2
    case ClosingProxies(_) => 1
    case Finished => 0
  }

  /** How much there is still to do in the present phase. */
  function WorkLeft(c: Ctl): nat {
    match c.life.stop
    case Waiting => if c.life.stopRequested then 0 else 1
    case ReadClosed => (if c.life.managerDone then 0 else 1) + ManagerWork(c.reg.mgr)
    case SendClosed => if c.life.writerDone then 0 else 1
    case ConnClosed => if c.life.readerDone then 0 else 1
    case Draining => |c.pool.waiting|
    case ClosingProxies(left) => |left|
    case Finished => 0
  }

  function ManagerWork(mgr: ManagerPhase): nat {
    match mgr
    case Idle => 0
    case Running(_) => 2
    case Adding(_) => 2
    case Entering(_) => 1
    case Closing(_) => 2
    case Dropping(_) => 1
  }

  predicate Closer(c': Ctl, c: Ctl) {
    PhasesLeft(c') < PhasesLeft(c) || (PhasesLeft(c') == PhasesLeft(c) && WorkLeft(c') < WorkLeft(c))
  }

  /** The step with which the manager goroutine gets on with its message. */
  function ManagerOn(mgr: ManagerPhase, table: map<string, nat>): ManagerEvent
    requires !mgr.Idle?
  {
    match mgr
    case Running(_) => RunFails
    case Adding(p) => if p.name in table then AddClashes else AddToTable
    case Entering(_) => Enter
    case Closing(_) => DropFromTable
    case Dropping(_) => DropEntry
  }

  lemma ManagerGoesOn(c: Ctl, limit: nat, table: map<string, nat>)
    requires c.life.started && c.life.stop.ReadClosed? && !c.life.managerDone && !c.reg.mgr.Idle?
    ensures var e := OfManager(ManagerOn(c.reg.mgr, table)); CtlEnabled(c, e) && Closer(CtlNext(c, limit, e), c)
  {
  }

  /** The next step of a control's shutdown, with a proxy `n` that is still to be closed, if any. */
  function EndEvent(c: Ctl, table: map<string, nat>, n: string): Event
    requires Active(c)
  {
    match c.life.stop
    case Waiting => OfLife(if c.life.stopRequested then CloseRead else RequestStop)
    case ReadClosed =>
      if c.life.managerDone then OfLife(CloseSend)
      else if c.reg.mgr.Idle? then OfLife(ManagerExit)
      else OfManager(ManagerOn(c.reg.mgr, table))
    case SendClosed => OfLife(if c.life.writerDone then CloseConn else WriterExit)
    case ConnClosed => OfLife(if c.life.readerDone then ClosePool else ReaderExit)
    case Draining => if c.pool.waiting == [] then OfLife(DrainEnd) else OfPool(Drain)
    case ClosingProxies(left) => OfLife(if left == {} then Finish else CloseOne(n))
  }

  lemma EndEventEnabled(c: Ctl, limit: nat, table: map<string, nat>, n: string)
    requires Active(c) && LifeOk(c.life)
    requires c.life.stop.ClosingProxies? && c.life.stop.left != {} ==> n in c.life.stop.left
    ensures CtlEnabled(c, EndEvent(c, table, n))
    ensures Closer(CtlNext(c, limit, EndEvent(c, table, n)), c)
  {
    if c.life.stop.ReadClosed? && !c.life.managerDone && !c.reg.mgr.Idle? { ManagerGoesOn(c, limit, table); }
    if c.life.stop.ClosingProxies? && c.life.stop.left != {} {
      assert |c.life.stop.left - {n}| == |c.life.stop.left| - 1;
    }
  }

  /** Only control `c` has changed. */
  predicate OnlyChanged(s: Server, s': Server, c: nat) {
    && |s'.ctls| == |s.ctls| && s'.byRunId == s.byRunId
    && forall k | 0 <= k < |s.ctls| && k != c :: s'.ctls[k] == s.ctls[k]
  }

  /** In each phase of its shutdown a control has a step of its own to take, which brings it closer to its
      end. */
  lemma EndStep(s: Server, limit: nat, c: nat) returns (step: Step)
    requires Inv(s, limit) && c < |s.ctls| && Active(s.ctls[c])
    ensures Enabled(s, step) && Inv(Next(s, limit, step), limit) && OnlyChanged(s, Next(s, limit, step), c)
    ensures var c' := Next(s, limit, step).ctls[c];
            Closer(c', s.ctls[c]) && c'.life.started && c'.runId == s.ctls[c].runId
  {
    var k := s.ctls[c];
    assert CtlOk(k, limit);
    var n := "";
    if k.life.stop.ClosingProxies? && k.life.stop.left != {} { n :| n in k.life.stop.left; }
    var e := EndEvent(k, s.table, n);
    EndEventEnabled(k, limit, s.table, n);
    step := At(c, e);
    AtKeeps(s, limit, c, e);
    CtlGrows(k, limit, e);
  }

  lemma RunsFirst(s: Server, limit: nat, step: Step, rest: seq<Step>, s': Server)
    requires Enabled(s, step) && Runs(Next(s, limit, step), limit, rest, s')
    ensures Runs(s, limit, [step] + rest, s')
  {
    assert ([step] + rest)[1..] == rest;
  }

  /** A control that has started can always come to its end, by steps of its own. */
  lemma {:induction false} ControlCanEnd(s: Server, limit: nat, c: nat) returns (steps: seq<Step>, s': Server)
    requires Inv(s, limit) && c < |s.ctls| && s.ctls[c].life.started
    ensures Runs(s, limit, steps, s') && Inv(s', limit) && OnlyChanged(s, s', c) && Done(s'.ctls[c])
    decreases PhasesLeft(s.ctls[c]), WorkLeft(s.ctls[c])
  {
    steps, s' := [], s;
    if !Done(s.ctls[c]) {
      var step := EndStep(s, limit, c);
      var rest;
      rest, s' := ControlCanEnd(Next(s, limit, step), limit, c);
      RunsFirst(s, limit, step, rest, s');
      steps := [step] + rest;
    }
  }

  /** The control that a login replaced is an earlier one. */
  lemma PredEarlier(s: Server, limit: nat, c: nat)
    requires Inv(s, limit) && c < |s.ctls|
    ensures s.ctls[c].pred.Some? ==> s.ctls[c].pred.value < c
  {
    assert ChainOk(Links(s.ctls), c);
  }

  /** Once that one is done, the control can start. */
  lemma StartNow(s: Server, limit: nat, c: nat) returns (s': Server)
    requires Inv(s, limit) && c < |s.ctls| && !s.ctls[c].life.started && PredDone(s, c)
    ensures Runs(s, limit, [At(c, OfLife(Start))], s') && Inv(s', limit) && OnlyChanged(s, s', c)
    ensures s'.ctls[c] == s.ctls[c].(life := s.ctls[c].life.(started := true))
  {
    var start := At(c, OfLife(Start));
    s' := Next(s, limit, start);
    AtKeeps(s, limit, c, OfLife(Start));
    RunsFirst(s, limit, start, [], s');
    assert [start] + [] == [start];
  }

  /** A login can always come to its start: the control that it replaced can start if need be, and end.
      Later controls have no part in it. */
  lemma {:induction false} LoginCanStart(s: Server, limit: nat, c: nat) returns (steps: seq<Step>, s': Server)
    requires Inv(s, limit) && c < |s.ctls| && !s.ctls[c].life.started
    ensures Runs(s, limit, steps, s') && Inv(s', limit)
    ensures |s'.ctls| == |s.ctls| && forall k | c < k < |s.ctls| :: s'.ctls[k] == s.ctls[k]
    ensures s'.ctls[c] == s.ctls[c].(life := s.ctls[c].life.(started := true))
    decreases c, 1
  {
    var waited, t := PredCanEnd(s, limit, c);
    s' := StartNow(t, limit, c);
    steps := waited + [At(c, OfLife(Start))];
    RunsOn(s, limit, waited, t, [At(c, OfLife(Start))], s');
  }

  lemma {:induction false} PredCanEnd(s: Server, limit: nat, c: nat) returns (steps: seq<Step>, s': Server)
    requires Inv(s, limit) && c < |s.ctls|
    ensures Runs(s, limit, steps, s') && Inv(s', limit)
    ensures |s'.ctls| == |s.ctls| && (forall k | c <= k < |s.ctls| :: s'.ctls[k] == s.ctls[k]) && PredDone(s', c)
    decreases c, 0
  {
    PredEarlier(s, limit, c);
    var pred := s.ctls[c].pred;
    steps, s' := [], s;
    if pred.Some? {
      if !s.ctls[pred.value].life.started { steps, s' := LoginCanStart(s, limit, pred.value); }
      var more, t := ControlCanEnd(s', limit, pred.value);
      RunsOn(s, limit, steps, s', more, t);
      steps, s' := steps + more, t;
    }
  }

  /** The server after a step of the manager goroutine of control `c`. */
  function WithReg(s: Server, c: nat, reg: Registry, table: map<string, nat>): Server
    requires c < |s.ctls|
  {
    s.(ctls := s.ctls[c := s.ctls[c].(reg := reg)], table := table)
  }

  /** The manager goroutine is at work. */
  predicate Managing(s: Server, c: nat) {
    c < |s.ctls| && s.ctls[c].life.started && !s.ctls[c].life.managerDone
  }

  lemma ManagerStep(s: Server, limit: nat, c: nat, m: ManagerEvent, rest: seq<Step>, t: Server)
    requires Managing(s, c) && ManagerEnabled(s.ctls[c].reg, m) && !m.AddClashes? && !m.DropFromTable?
    requires m.AddToTable? ==> s.ctls[c].reg.mgr.p.name !in s.table
    requires Runs(WithReg(s, c, ManagerNext(s.ctls[c].reg, limit, m),
                          if m.AddToTable? then s.table[s.ctls[c].reg.mgr.p.name := c] else s.table),
                  limit, rest, t)
    ensures Runs(s, limit, [At(c, OfManager(m))] + rest, t)
  {
    RunsFirst(s, limit, At(c, OfManager(m)), rest, t);
  }

  /** A proxy that is running, and whose name is free, can be registered. */
  lemma AddingCanEnter(s: Server, limit: nat, c: nat, p: Proxy) returns (steps: seq<Step>, s': Server)
    requires Managing(s, c) && s.ctls[c].reg.mgr == Adding(p) && p.name !in s.table
    ensures Runs(s, limit, steps, s')
    ensures var reg := s.ctls[c].reg;
            s' == WithReg(s, c, Registry(Idle, reg.proxies[p.name := p], reg.portsUsed), s.table[p.name := c])
  {
    var reg := s.ctls[c].reg;
    var entering := WithReg(s, c, reg.(mgr := Entering(p)), s.table[p.name := c]);
    s' := WithReg(s, c, Registry(Idle, reg.proxies[p.name := p], reg.portsUsed), s.table[p.name := c]);
    assert WithReg(entering, c, ManagerNext(entering.ctls[c].reg, limit, Enter), entering.table) == s';
    ManagerStep(entering, limit, c, Enter, [], s');
    steps := [At(c, OfManager(Enter))] + [];
    ManagerStep(s, limit, c, AddToTable, steps, s');
    steps := [At(c, OfManager(AddToTable))] + steps;
  }

  /** In every reachable state a proxy for which there is room and whose name is free can be registered
      by a control that is between two messages. */
  lemma ProxyCanRegister(s: Server, limit: nat, c: nat, p: Proxy) returns (steps: seq<Step>, s': Server)
    requires Inv(s, limit) && Managing(s, c) && s.ctls[c].reg.mgr.Idle? && p.name !in s.table
    requires limit == 0 || Sum(s.ctls[c].reg.proxies) + p.ports <= limit
    ensures Runs(s, limit, steps, s') && s'.table == s.table[p.name := c] && OnlyChanged(s, s', c)
    ensures s'.ctls[c].reg.mgr.Idle? && s'.ctls[c].reg.proxies == s.ctls[c].reg.proxies[p.name := p]
  {
    assert CtlOk(s.ctls[c], limit);
    var reg := s.ctls[c].reg;
    AdmittedExactly(reg, limit, p);
    var running := ManagerNext(reg, limit, NewProxy(p));
    var admitted := WithReg(s, c, running, s.table);
    var adding := WithReg(s, c, running.(mgr := Adding(p)), s.table);
    steps, s' := AddingCanEnter(adding, limit, c, p);
    assert WithReg(admitted, c, ManagerNext(admitted.ctls[c].reg, limit, RunSucceeds), admitted.table) == adding;
    ManagerStep(admitted, limit, c, RunSucceeds, steps, s');
    steps := [At(c, OfManager(RunSucceeds))] + steps;
    ManagerStep(s, limit, c, NewProxy(p), steps, s');
    steps := [At(c, OfManager(NewProxy(p)))] + steps;
  }

  /** A connection that is new can be offered to a control, or handed to who waits for one while the
      buffer is empty, and one in the buffer can be taken, in whatever phase the control is. */
  lemma ConnectionsAnyTime(s: Server, c: nat, conn: nat)
    requires c < |s.ctls|
    ensures var q := s.ctls[c].pool;
            && (Enabled(s, At(c, OfPool(Put(conn)))) <==> conn !in q.accepted)
            && (Enabled(s, At(c, OfPool(Pass(conn)))) <==> conn !in q.accepted && q.waiting == [])
            && (Enabled(s, At(c, OfPool(Take))) <==> q.waiting != [])
  {
  }
}
