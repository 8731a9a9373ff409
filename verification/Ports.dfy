/** The port manager: free, used and reserved ports, with records that the used and the reserved
    table share and that are updated in place. */
module Ports {
  import opened Collections

  const MIN_PORT := 1
  const MAX_PORT := 65535
  /** 24 hours, in nanoseconds. */
  const MAX_RESERVED: int := 24 * 3600 * 1_000_000_000
  const MAX_TRIES := 5
  const DAY := 86_400_000_000_000

  datatype PortError = PortAlreadyUsed | PortNotAllowed | PortUnAvailable | NoAvailablePort
  datatype Acquired = Port(port: int) | NoPort(error: PortError)

  datatype Record = Record(proxyName: string, port: int, closed: bool, updateTime: int)

  /** The tables hold record identities; `records` gives the present contents of each record. */
  datatype PortState<Id(==)> = PortState(
    reserved: map<string, Id>, used: map<int, Id>, free: set<int>, records: map<Id, Record>)

  // ---------------------------------------------------------------- steps

  function TakeFrom<Id>(s: PortState<Id>, id: Id, name: string, port: int, now: int): PortState<Id> {
    PortState(s.reserved[name := id], s.used[port := id], s.free - {port},
              s.records[id := Record(name, port, false, now)])
  }

  /** The port reserved for this name, if the system lets it be bound. */
  predicate ReservedHit<Id>(s: PortState<Id>, name: string, port: int, first: bool) {
    port == 0 && name in s.reserved && first
  }

  predicate NoneBindable(ports: set<int>, probe: int -> bool) {
    forall p | p in ports :: !probe(p)
  }

  /** At most five free ports were tried, all of them if there are no more, and none could be bound. */
  ghost predicate AllTriesFail(free: set<int>, probe: int -> bool) {
    exists tried: set<int> ::
      tried <= free && (tried == free || |tried| == MAX_TRIES) && NoneBindable(tried, probe)
  }

  /** `Acquire`. The operating system's answers are parameters: `first` for the reserved port,
      `probe` for the ports tried after it. `id` is the new record. */
  ghost predicate AcquireStep<Id>(s: PortState<Id>, s': PortState<Id>, id: Id, name: string, port: int,
                                  now: int, first: bool, probe: int -> bool, r: Acquired)
    requires name in s.reserved ==> s.reserved[name] in s.records
  {
    if ReservedHit(s, name, port, first) then
      var p := s.records[s.reserved[name]].port;
      s' == TakeFrom(s, id, name, p, now) && r == Port(p)
    else if port == 0 then
      || (r == NoPort(NoAvailablePort) && s' == s && AllTriesFail(s.free, probe))
      || (exists p | p in s.free :: PicksPort(s, s', id, name, now, probe, r, p))
    else if port in s.free then
      if probe(port) then s' == TakeFrom(s, id, name, port, now) && r == Port(port)
      else s' == s && r == NoPort(PortUnAvailable)
    else s' == s && r == NoPort(if port in s.used then PortAlreadyUsed else PortNotAllowed)
  }

  /** A random free port is taken. Picking port 0 is reported as a failure all the same. */
  predicate PicksPort<Id(==)>(s: PortState<Id>, s': PortState<Id>, id: Id, name: string, now: int,
                              probe: int -> bool, r: Acquired, p: int)
  {
    probe(p) && s' == TakeFrom(s, id, name, p, now) && r == if p == 0 then NoPort(NoAvailablePort) else Port(p)
  }

  function ReleaseFrom<Id>(s: PortState<Id>, port: int, now: int): PortState<Id>
    requires port in s.used ==> s.used[port] in s.records
  {
    if port !in s.used then s
    else
      var id := s.used[port];
      s.(free := s.free + {port}, used := s.used - {port},
         records := s.records[id := s.records[id].(closed := true, updateTime := now)])
  }

  predicate Expired(r: Record, now: int) {
    r.closed && now - r.updateTime > MAX_RESERVED
  }

  ghost function Clean<Id>(s: PortState<Id>, now: int): PortState<Id>
    requires forall n | n in s.reserved :: s.reserved[n] in s.records
  {
    s.(reserved := map n | n in s.reserved && !Expired(s.records[s.reserved[n]], now) :: s.reserved[n])
  }

  /** The reservations left while the names in `todo` are still to be looked at. */
  ghost function Kept<Id>(s: PortState<Id>, todo: set<string>, now: int): map<string, Id>
    requires forall n | n in s.reserved :: s.reserved[n] in s.records
  {
    map n | n in s.reserved && (n in todo || !Expired(s.records[s.reserved[n]], now)) :: s.reserved[n]
  }

  lemma KeptNext<Id>(s: PortState<Id>, todo: set<string>, name: string, now: int)
    requires forall n | n in s.reserved :: s.reserved[n] in s.records
    requires name in todo && name in s.reserved
    ensures Kept(s, todo - {name}, now)
         == if Expired(s.records[s.reserved[name]], now) then Kept(s, todo, now) - {name} else Kept(s, todo, now)
  {
  }

  lemma KeptEnds<Id>(s: PortState<Id>, now: int)
    requires forall n | n in s.reserved :: s.reserved[n] in s.records
    ensures Kept(s, s.reserved.Keys, now) == s.reserved
    ensures Clean(s, now) == s.(reserved := Kept(s, {}, now))
  {
  }

  // ---------------------------------------------------------------- invariant

  ghost predicate UsedOk<Id>(s: PortState<Id>, p: int) {
    p in s.used ==>
      && s.used[p] in s.records && s.records[s.used[p]].port == p && !s.records[s.used[p]].closed
  }

  ghost predicate ReservedOk<Id>(s: PortState<Id>, allowed: set<int>, n: string) {
    n in s.reserved ==>
      && s.reserved[n] in s.records && s.records[s.reserved[n]].port in allowed
      && s.records[s.reserved[n]].proxyName == n
  }

  /** Every allowed port is free or used, not both; used records name their own port and are not
      closed; reserved records name their own proxy and an allowed port. */
  ghost predicate Conserved<Id>(s: PortState<Id>, allowed: set<int>) {
    && s.free !! s.used.Keys && s.free + s.used.Keys == allowed
    && (forall p :: UsedOk(s, p))
    && (forall n :: ReservedOk(s, allowed, n))
  }

  lemma TakeConserves<Id>(s: PortState<Id>, allowed: set<int>, id: Id, name: string, port: int, now: int)
    requires Conserved(s, allowed) && id !in s.records && port in allowed
    ensures Conserved(TakeFrom(s, id, name, port, now), allowed)
  {
    var s' := TakeFrom(s, id, name, port, now);
    assert s'.free + s'.used.Keys == allowed;
    forall p ensures UsedOk(s', p) { assert UsedOk(s, p); }
    forall n ensures ReservedOk(s', allowed, n) { assert ReservedOk(s, allowed, n); }
  }

  lemma ReleaseConserves<Id>(s: PortState<Id>, allowed: set<int>, port: int, now: int)
    requires Conserved(s, allowed)
    ensures UsedOk(s, port) && Conserved(ReleaseFrom(s, port, now), allowed)
  {
    assert UsedOk(s, port);
    if port in s.used {
      var s' := ReleaseFrom(s, port, now);
      assert s'.free + s'.used.Keys == allowed;
      forall p ensures UsedOk(s', p) { assert UsedOk(s, p); }
      forall n ensures ReservedOk(s', allowed, n) { assert ReservedOk(s, allowed, n); }
    }
  }

  lemma CleanConserves<Id>(s: PortState<Id>, allowed: set<int>, now: int)
    requires Conserved(s, allowed)
    ensures (forall n | n in s.reserved :: s.reserved[n] in s.records)
    ensures Conserved(Clean(s, now), allowed)
  {
    forall n | n in s.reserved ensures s.reserved[n] in s.records { assert ReservedOk(s, allowed, n); }
    var s' := Clean(s, now);
    forall p ensures UsedOk(s', p) { assert UsedOk(s, p); }
    forall n ensures ReservedOk(s', allowed, n) { assert ReservedOk(s, allowed, n); }
  }

  /** A reservation whose port is held under its own record outlives any cleaning. */
  lemma HeldNeverCleaned<Id>(s: PortState<Id>, allowed: set<int>, name: string, port: int, now: int)
    requires Conserved(s, allowed)
    requires name in s.reserved && port in s.used && s.used[port] == s.reserved[name]
    requires forall n | n in s.reserved :: s.reserved[n] in s.records
    ensures name in Clean(s, now).reserved && Clean(s, now).reserved[name] == s.reserved[name]
  {
    assert UsedOk(s, port);
  }

  // ---------------------------------------------------------------- what an acquisition gives

  /** An acquisition hands out a port that is in use exactly when the name's reserved port is in
      use and the system nevertheless lets it be bound; every other port comes from the free ones. */
  lemma HandsOutUsedExactly<Id>(s: PortState<Id>, s': PortState<Id>, allowed: set<int>, id: Id, name: string,
                                port: int, now: int, first: bool, probe: int -> bool, r: Acquired)
    requires Conserved(s, allowed) && id !in s.records
    requires name in s.reserved ==> s.reserved[name] in s.records
    requires AcquireStep(s, s', id, name, port, now, first, probe, r)
    ensures r.Port? && r.port in s.used
            <==> ReservedHit(s, name, port, first) && s.records[s.reserved[name]].port in s.used
    ensures r.Port? ==> r.port in allowed && r.port in s'.used && s'.used[r.port] == id
                        && s'.used.Keys == s.used.Keys + {r.port}
    ensures r.Port? && port != 0 ==> r.port == port
    ensures Conserved(s', allowed)
  {
    assert ReservedOk(s, allowed, name);
    if s' != s {
      var p :| p in allowed && s' == TakeFrom(s, id, name, p, now);
      TakeConserves(s, allowed, id, name, p, now);
    }
  }

  /** An acquisition can pick port 0: it asks for any port, its reservation is no help, and port 0 is
      allowed, free and bindable. */
  predicate ZeroCanBePicked<Id>(s: PortState<Id>, name: string, port: int, first: bool, probe: int -> bool) {
    port == 0 && !ReservedHit(s, name, port, first) && 0 in s.free && probe(0)
  }

  /** A failed acquisition leaves the tables alone, unless it picked port 0. */
  lemma FailedTake<Id>(s: PortState<Id>, s': PortState<Id>, id: Id, name: string,
                       port: int, now: int, first: bool, probe: int -> bool, r: Acquired)
    requires name in s.reserved ==> s.reserved[name] in s.records
    requires AcquireStep(s, s', id, name, port, now, first, probe, r) && r.NoPort?
    ensures s' == s || (ZeroCanBePicked(s, name, port, first, probe) && s' == TakeFrom(s, id, name, 0, now))
  {
  }

  /** A call can fail and change the tables all the same if and only if it can pick port 0. */
  lemma FailureTakesOnlyZero<Id(!new)>(s: PortState<Id>, id: Id, name: string,
                                       port: int, now: int, first: bool, probe: int -> bool)
    requires id !in s.records
    requires name in s.reserved ==> s.reserved[name] in s.records
    ensures (exists s', r :: AcquireStep(s, s', id, name, port, now, first, probe, r) && r.NoPort? && s' != s)
            <==> ZeroCanBePicked(s, name, port, first, probe)
  {
    if ZeroCanBePicked(s, name, port, first, probe) {
      var s', r := TakeFrom(s, id, name, 0, now), NoPort(NoAvailablePort);
      assert PicksPort(s, s', id, name, now, probe, r, 0);
      assert id in s'.records;
      assert AcquireStep(s, s', id, name, port, now, first, probe, r);
    }
    forall s', r | AcquireStep(s, s', id, name, port, now, first, probe, r) && r.NoPort? && s' != s
      ensures ZeroCanBePicked(s, name, port, first, probe)
    {
      FailedTake(s, s', id, name, port, now, first, probe, r);
    }
  }

  /** The answer to a request for a named port is decided by whether it is allowed, in use and bindable. */
  lemma NamedPortExactly<Id>(s: PortState<Id>, s': PortState<Id>, allowed: set<int>, id: Id, name: string,
                             port: int, now: int, first: bool, probe: int -> bool, r: Acquired)
    requires Conserved(s, allowed) && port != 0
    requires name in s.reserved ==> s.reserved[name] in s.records
    requires AcquireStep(s, s', id, name, port, now, first, probe, r)
    ensures r == Port(port) <==> port in allowed && port !in s.used && probe(port)
    ensures r == NoPort(PortUnAvailable) <==> port in allowed && port !in s.used && !probe(port)
    ensures r == NoPort(PortAlreadyUsed) <==> port in s.used
    ensures r == NoPort(PortNotAllowed) <==> port !in allowed
    ensures r.NoPort? ==> s' == s
  {
  }

  /** A request for any port is served from the name's reservation if that can be bound. Otherwise it gets
      a free port that can be bound; it may fail only if at least five free ports, or all of them, cannot
      be bound, or if it picked port 0. */
  lemma AnyPortServed<Id>(s: PortState<Id>, s': PortState<Id>, allowed: set<int>, id: Id, name: string,
                          now: int, first: bool, probe: int -> bool, r: Acquired)
    requires Conserved(s, allowed)
    requires name in s.reserved ==> s.reserved[name] in s.records
    requires AcquireStep(s, s', id, name, 0, now, first, probe, r)
    ensures first && name in s.reserved ==> r == Port(s.records[s.reserved[name]].port)
    ensures !(first && name in s.reserved) && r.Port? ==> r.port in s.free && probe(r.port)
    ensures r.NoPort? ==> r == NoPort(NoAvailablePort)
    ensures r.NoPort? && !(0 in s.free && probe(0)) ==>
              exists tried :: tried <= s.free && (tried == s.free || |tried| == 5) && NoneBindable(tried, probe)
    ensures |s.free| <= 5 && 0 !in s.free && (exists p :: p in s.free && probe(p)) ==> r.Port?
  {
    if r.NoPort? && s' == s && !(first && name in s.reserved) {
      var tried: set<int> :| tried <= s.free && (tried == s.free || |tried| == MAX_TRIES) && NoneBindable(tried, probe);
      SubsetSize(tried, s.free);
      assert |s.free - tried| == 0 ==> s.free - tried == {};
    }
  }

  lemma SubsetSize(a: set<int>, b: set<int>)
    requires a <= b
    ensures |b| == |a| + |b - a|
  {
    assert b == a + (b - a);
  }

  /** A port that was released can be acquired by anyone, and its reservation lasts for 24 hours: a
      cleaning takes it away if and only if more time has passed since the release. */
  lemma ReleasedExactly<Id>(s: PortState<Id>, allowed: set<int>, name: string, port: int, at: int, now: int)
    requires Conserved(s, allowed) && port in s.used
    requires name in s.reserved && s.reserved[name] == s.used[port]
    ensures s.used[port] in s.records
    ensures var s' := ReleaseFrom(s, port, at);
            && port in s'.free && port !in s'.used && s'.reserved == s.reserved
            && (forall n | n in s'.reserved :: s'.reserved[n] in s'.records)
            && (name in Clean(s', now).reserved <==> now - at <= DAY)
  {
    assert UsedOk(s, port);
    forall n | n in s.reserved ensures s.reserved[n] in s.records { assert ReservedOk(s, allowed, n); }
  }

  // ---------------------------------------------------------------- runs

  datatype Op<Id> =
    | AcquireOp(id: Id, name: string, port: int, at: int, first: bool, probe: int -> bool, r: Acquired)
    | ReleaseOp(port: int, at: int)
    | CleanOp(at: int)

  /** One operation. The tables hold records that exist, and a new record is new. */
  ghost predicate Step<Id>(s: PortState<Id>, op: Op<Id>, s': PortState<Id>) {
    match op
    case AcquireOp(id, name, port, at, first, probe, r) =>
      && id !in s.records && (name in s.reserved ==> s.reserved[name] in s.records)
      && AcquireStep(s, s', id, name, port, at, first, probe, r)
    case ReleaseOp(port, at) =>
      (port in s.used ==> s.used[port] in s.records) && s' == ReleaseFrom(s, port, at)
    case CleanOp(at) =>
      (forall n | n in s.reserved :: s.reserved[n] in s.records) && s' == Clean(s, at)
  }

  lemma StepConserves<Id>(s: PortState<Id>, op: Op<Id>, s': PortState<Id>, allowed: set<int>)
    requires Conserved(s, allowed) && Step(s, op, s')
    ensures Conserved(s', allowed)
  {
    match op
    case AcquireOp(id, name, port, at, first, probe, r) =>
      HandsOutUsedExactly(s, s', allowed, id, name, port, at, first, probe, r);
    case ReleaseOp(port, at) => ReleaseConserves(s, allowed, port, at);
    case CleanOp(at) => CleanConserves(s, allowed, at);
  }

  /** `ss` is a run with operations `ops`, the clock never going back. */
  ghost predicate Behavior<Id>(ss: seq<PortState<Id>>, ops: seq<Op<Id>>) {
    && |ss| == |ops| + 1
    && (forall i | 0 <= i < |ops| :: Step(ss[i], ops[i], ss[i + 1]))
    && (forall i, j | 0 <= i < j < |ops| :: ops[i].at <= ops[j].at)
  }

  /** Conservation, in every state of every run that starts conserved. */
  lemma {:induction false} RunConserves<Id>(ss: seq<PortState<Id>>, ops: seq<Op<Id>>, allowed: set<int>, i: nat)
    requires Behavior(ss, ops) && i < |ss| && Conserved(ss[0], allowed)
    ensures Conserved(ss[i], allowed)
  {
    if i > 0 {
      RunConserves(ss, ops, allowed, i - 1);
      StepConserves(ss[i - 1], ops[i - 1], ss[i], allowed);
    }
  }

  /** A closed record is never written again. */
  lemma ClosedStays<Id>(s: PortState<Id>, op: Op<Id>, s': PortState<Id>, allowed: set<int>, id: Id)
    requires Conserved(s, allowed) && Step(s, op, s') && id in s.records && s.records[id].closed
    ensures id in s'.records && s'.records[id] == s.records[id]
  {
    if op.ReleaseOp? { assert UsedOk(s, op.port); }
  }

  lemma {:induction false} ClosedStaysOn<Id>(ss: seq<PortState<Id>>, ops: seq<Op<Id>>, allowed: set<int>,
                                             id: Id, i: nat, j: nat)
    requires Behavior(ss, ops) && Conserved(ss[0], allowed) && i <= j < |ss|
    requires id in ss[i].records && ss[i].records[id].closed
    ensures id in ss[j].records && ss[j].records[id] == ss[i].records[id]
    decreases j - i
  {
    if i < j {
      RunConserves(ss, ops, allowed, i);
      ClosedStays(ss[i], ops[i], ss[i + 1], allowed, id);
      ClosedStaysOn(ss, ops, allowed, id, i + 1, j);
    }
  }

  ghost predicate Remembers<Id>(s: PortState<Id>, name: string, id: Id, port: int) {
    name in s.reserved && s.reserved[name] == id && id in s.records && s.records[id].port == port
  }

  /** An attempt that gets no port and does not take port 0 either: 0 is not an allowed port, or the
      attempt named a port. */
  predicate InVain<Id>(op: Op<Id>, allowed: set<int>)
    requires op.AcquireOp?
  {
    op.r.NoPort? && (0 !in allowed || op.port != 0)
  }

  /** The reservation survives a run in which every attempt of the name is in vain, if at the end its
      record is still held or was released at most 24 hours before `now`. */
  lemma {:induction false} RemembersOn<Id>(ss: seq<PortState<Id>>, ops: seq<Op<Id>>, allowed: set<int>,
                                           name: string, id: Id, port: int, now: int, i: nat)
    requires Behavior(ss, ops) && Conserved(ss[0], allowed) && i < |ss| && Remembers(ss[0], name, id, port)
    requires forall k | 0 <= k < |ops| && ops[k].AcquireOp? && ops[k].name == name :: InVain(ops[k], allowed)
    requires forall k | 0 <= k < |ops| :: ops[k].at <= now
    requires var last := ss[|ops|].records; id in last && last[id].closed ==> now - last[id].updateTime <= DAY
    ensures Remembers(ss[i], name, id, port)
  {
    if i > 0 {
      RemembersOn(ss, ops, allowed, name, id, port, now, i - 1);
      var s, op, s' := ss[i - 1], ops[i - 1], ss[i];
      assert Step(s, op, s');
      RunConserves(ss, ops, allowed, i - 1);
      if op.AcquireOp? && op.name == name {
        FailedTake(s, s', op.id, name, op.port, op.at, op.first, op.probe, op.r);
      }
      if op.CleanOp? && Expired(s.records[id], op.at) {
        ClosedStaysOn(ss, ops, allowed, id, i - 1, |ops|);
        assert false;
      }
    }
  }

  /** Sticky ports. A name that acquired `port`, has acquired nothing since however often it tried,
      and whose record is still held or was released at most 24 hours ago, gets that same port when it
      asks for port 0 and the system lets the port be bound, whatever other names did in between. */
  lemma StickyPort<Id>(ss: seq<PortState<Id>>, ops: seq<Op<Id>>, allowed: set<int>,
                       name: string, id: Id, port: int, now: int,
                       s': PortState<Id>, id': Id, probe: int -> bool, r: Acquired)
    requires Behavior(ss, ops) && Conserved(ss[0], allowed) && Remembers(ss[0], name, id, port)
    requires forall k | 0 <= k < |ops| && ops[k].AcquireOp? && ops[k].name == name :: InVain(ops[k], allowed)
    requires forall k | 0 <= k < |ops| :: ops[k].at <= now
    requires var last := ss[|ops|].records; id in last && last[id].closed ==> now - last[id].updateTime <= DAY
    requires Step(ss[|ops|], AcquireOp(id', name, 0, now, true, probe, r), s')
    ensures r == Port(port)
  {
    RemembersOn(ss, ops, allowed, name, id, port, now, |ops|);
  }

  /** What an acquisition leaves behind is what `StickyPort` starts from. */
  lemma AcquiredRemembers<Id>(s: PortState<Id>, s': PortState<Id>, id: Id, name: string, port: int,
                              now: int, first: bool, probe: int -> bool, r: Acquired)
    requires Step(s, AcquireOp(id, name, port, now, first, probe, r), s') && r.Port?
    ensures Remembers(s', name, id, r.port)
  {
  }

  // ---------------------------------------------------------------- classes

  class PortCtx {
    var proxyName: string
    var port: int
    var closed: bool
    var updateTime: int

    constructor (name: string, now: int)
      ensures proxyName == name && !closed && updateTime == now && port == 0
    {
      proxyName, closed, updateTime, port := name, false, now, 0;
    }

    ghost function Value(): Record
      reads this
    {
      Record(proxyName, port, closed, updateTime)
    }
  }

  class Manager {
    var reservedPorts: map<string, PortCtx>
    var usedPorts: map<int, PortCtx>
    var freePorts: set<int>
    ghost var ctxs: set<PortCtx>

    ghost predicate Valid()
      reads this
    {
      reservedPorts.Values + usedPorts.Values <= ctxs
    }

    ghost function View(): PortState<PortCtx>
      reads this, ctxs
    {
      PortState(reservedPorts, usedPorts, freePorts, map c | c in ctxs :: c.Value())
    }

    /** No port given means every port. */
    constructor (allowPorts: set<int>)
      ensures Valid() && ctxs == {} && reservedPorts == map[] && usedPorts == map[]
      ensures Conserved(View(), freePorts)
      ensures forall p :: p in freePorts <==> if allowPorts != {} then p in allowPorts else MIN_PORT <= p <= MAX_PORT
    {
      reservedPorts, usedPorts, ctxs, freePorts := map[], map[], {}, {};
      new;
      if |allowPorts| > 0 {
        freePorts := allowPorts;
      } else {
        AllowAll();
      }
      assert View() == PortState(map[], map[], freePorts, map[]);
    }

    method AllowAll()
      requires freePorts == {}
      modifies this`freePorts
      ensures forall p :: p in freePorts <==> MIN_PORT <= p <= MAX_PORT
    {
      for i := MIN_PORT to MAX_PORT + 1
        invariant forall p :: p in freePorts <==> MIN_PORT <= p < i
      {
        freePorts := freePorts + {i};
      }
    }

    /** Enters the record under the port and the name; the record learns its port at the end. */
    method Take(ctx: PortCtx, ghost name: string, realPort: int, ghost now: int)
      requires Valid() && ctx !in ctxs && ctx.Value() == Record(name, 0, false, now)
      modifies this, ctx`port
      ensures Valid() && ctxs == old(ctxs) + {ctx}
      ensures View() == TakeFrom(old(View()), ctx, name, realPort, now)
    {
      usedPorts := usedPorts[realPort := ctx];
      reservedPorts := reservedPorts[ctx.proxyName := ctx];
      freePorts := freePorts - {realPort};
      ctx.port := realPort;
      ctxs := ctxs + {ctx};
    }

    /** Tries up to five free ports, in whatever order the map of free ports yields them. */
    method AcquireRandom(ctx: PortCtx, ghost name: string, ghost now: int, probe: int -> bool) returns (r: Acquired)
      requires Valid() && ctx !in ctxs && ctx.Value() == Record(name, 0, false, now)
      modifies this, ctx`port
      ensures Valid() && old(ctxs) <= ctxs && ctxs <= old(ctxs) + {ctx}
      ensures (r == NoPort(NoAvailablePort) && View() == old(View()) && AllTriesFail(old(freePorts), probe))
              || exists p | p in old(freePorts) :: PicksPort(old(View()), View(), ctx, name, now, probe, r, p)
    {
      var realPort := 0;
      var todo, count := freePorts, 0;
      ghost var tried: set<int> := {};
      while todo != {}
        invariant unchanged(this) && unchanged(ctx) && View() == old(View())
        invariant todo <= freePorts && tried == freePorts - todo && |tried| == count <= MAX_TRIES
        invariant NoneBindable(tried, probe)
        decreases |todo|
      {
        var k := AnyOf(todo);
        count := count + 1;
        if count > MAX_TRIES { break; }
        if probe(k) {
          Take(ctx, name, k, now);
          realPort := k;
          r := if realPort == 0 then NoPort(NoAvailablePort) else Port(realPort);
          assert PicksPort(old(View()), View(), ctx, name, now, probe, r, k);
          return;
        }
        todo := todo - {k};
        tried := tried + {k};
      }
      assert AllTriesFail(old(freePorts), probe);
      return NoPort(NoAvailablePort);
    }

    method Acquire(name: string, port: int, now: int, first: bool, probe: int -> bool)
      returns (r: Acquired, ghost id: PortCtx)
      requires Valid()
      modifies this
      ensures Valid() && fresh(id) && old(ctxs) <= ctxs && ctxs <= old(ctxs) + {id}
      ensures AcquireStep(old(View()), View(), id, name, port, now, first, probe, r)
    {
      var ctx := new PortCtx(name, now);
      id := ctx;
      ghost var s := View();
      if port == 0 && name in reservedPorts && first {
        var realPort := reservedPorts[name].port;
        Take(ctx, name, realPort, now);
        return Port(realPort), id;
      }
      if port == 0 {
        r := AcquireRandom(ctx, name, now, probe);
        return r, id;
      }
      if port in freePorts {
        if probe(port) {
          Take(ctx, name, port, now);
          return Port(port), id;
        }
        return NoPort(PortUnAvailable), id;
      }
      if port in usedPorts { return NoPort(PortAlreadyUsed), id; }
      return NoPort(PortNotAllowed), id;
    }

    method Release(port: int, now: int)
      requires Valid()
      modifies this, ctxs
      ensures Valid() && ctxs == old(ctxs)
      ensures View() == ReleaseFrom(old(View()), port, now)
    {
      if port in usedPorts {
        var ctx := usedPorts[port];
        freePorts := freePorts + {port};
        usedPorts := usedPorts - {port};
        ctx.closed := true;
        ctx.updateTime := now;
      }
    }

    /** One round of the cleaning worker. */
    method CleanReservedPorts(now: int)
      requires Valid()
      modifies this`reservedPorts
      ensures Valid()
      ensures View() == Clean(old(View()), now)
    {
      ghost var s := View();
      CleaningBegins(now);
      CleanAll(now, s);
      CleaningEnds(s, now);
    }

    method CleanAll(now: int, ghost s: PortState<PortCtx>)
      requires Cleaning(s, reservedPorts.Keys, now)
      modifies this`reservedPorts
      ensures Cleaning(s, {}, now)
    {
      var todo := reservedPorts.Keys;
      while todo != {}
        invariant Cleaning(s, todo, now)
        decreases |todo|
      {
        var name := AnyOf(todo);
        CleanOne(name, now, s, todo);
        todo := todo - {name};
      }
    }

    lemma CleaningBegins(now: int)
      requires Valid()
      ensures Cleaning(View(), reservedPorts.Keys, now)
    {
      KeptEnds(View(), now);
    }

    lemma CleaningEnds(s: PortState<PortCtx>, now: int)
      requires Cleaning(s, {}, now)
      ensures (forall n | n in s.reserved :: s.reserved[n] in s.records) && View() == Clean(s, now)
    {
      KeptEnds(s, now);
    }

    /** The cleaning that found the state `s` has still to look at the names of `todo`. */
    ghost predicate Cleaning(s: PortState<PortCtx>, todo: set<string>, now: int)
      reads this, ctxs
    {
      && Valid() && (forall n | n in s.reserved :: s.reserved[n] in s.records)
      && todo <= s.reserved.Keys && View() == s.(reserved := Kept(s, todo, now))
    }

    /** One turn of the cleaning loop. */
    method CleanOne(name: string, now: int, ghost s: PortState<PortCtx>, ghost todo: set<string>)
      requires Cleaning(s, todo, now) && name in todo
      modifies this`reservedPorts
      ensures Cleaning(s, todo - {name}, now)
    {
      assert name in View().reserved;
      var ctx := reservedPorts[name];
      assert View().records[ctx] == ctx.Value();
      KeptNext(s, todo, name, now);
      if ctx.closed && now - ctx.updateTime > MAX_RESERVED {
        reservedPorts := reservedPorts - {name};
      }
    }
  }
}
