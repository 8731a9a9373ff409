/** TCP proxies, alone or in groups that share one port, over the port manager. */
module TcpGroups {
  import opened Addresses
  import opened Options
  import opened Ports

  datatype GroupError = AcquireFailed(error: PortError) | BindFailed | ParamsInvalid | DifferentPort | AuthFailed

  /** What a member asked for when it joined. */
  datatype Request = Request(name: string, group: string, groupKey: string, addr: string, port: int)

  /** A listener handed to a proxy: its identity and the request it answers. */
  datatype Listener = Listener(id: nat, request: Request)

  datatype Group = Group(
    group: string, groupKey: string, addr: string, port: int, realPort: int, bound: int,
    lns: seq<Listener>)

  const NEW_GROUP := Group("", "", "", 0, 0, 0, [])

  /** The system's answers during one call: the probes of the port manager, and the port that
      the listening socket got, if it could be opened. */
  datatype Answers = Answers(now: int, first: bool, probe: int -> bool, bind: Option<int>)

  datatype Listened = Listening(ln: Listener, realPort: int) | Refused(error: GroupError)

  // ---------------------------------------------------------------- one group

  /** The first member of a group, once the port manager has answered. */
  predicate FirstOutcome(g: Group, g': Group, ln: nat, q: Request, os: Answers, acquired: Acquired, r: Listened) {
    if acquired.NoPort? then g' == g && r == Refused(AcquireFailed(acquired.error))
    else if os.bind.None? then g' == g && r == Refused(BindFailed)
    else
      && g' == Group(q.group, q.groupKey, q.addr, q.port, acquired.port, os.bind.value, [Listener(ln, q)])
      && r == Listening(Listener(ln, q), acquired.port)
  }

  /** `TCPGroup.Listen` on a group without members: the port manager is asked for a port. */
  ghost predicate FirstListen<Id>(ps: PortState<Id>, ps': PortState<Id>, id: Id, g: Group, g': Group,
                                  ln: nat, q: Request, os: Answers, r: Listened)
    requires q.name in ps.reserved ==> ps.reserved[q.name] in ps.records
  {
    exists acquired: Acquired ::
      && AcquireStep(ps, ps', id, q.name, q.port, os.now, os.first, os.probe, acquired)
      && FirstOutcome(g, g', ln, q, os, acquired, r)
  }

  /** `TCPGroup.Listen` on a group with members. */
  predicate JoinListen(g: Group, g': Group, ln: nat, q: Request, r: Listened) {
    if g.group != q.group || g.addr != q.addr then g' == g && r == Refused(ParamsInvalid)
    else if g.port != q.port then g' == g && r == Refused(DifferentPort)
    else if g.groupKey != q.groupKey then g' == g && r == Refused(AuthFailed)
    else g' == g.(lns := g.lns + [Listener(ln, q)]) && r == Listening(Listener(ln, q), g.realPort)
  }

  ghost predicate ListenStep<Id>(ps: PortState<Id>, ps': PortState<Id>, id: Id, g: Group, g': Group,
                                 ln: nat, q: Request, os: Answers, r: Listened)
    requires q.name in ps.reserved ==> ps.reserved[q.name] in ps.records
  {
    if g.lns == [] then FirstListen(ps, ps', id, g, g', ln, q, os, r)
    else ps' == ps && JoinListen(g, g', ln, q, r)
  }

  function RemoveListener(lns: seq<Listener>, ln: Listener): seq<Listener> {
    if lns == [] then []
    else if lns[0] == ln then lns[1..]
    else [lns[0]] + RemoveListener(lns[1..], ln)
  }

  lemma {:induction false} RemoveListenerAt(lns: seq<Listener>, i: nat)
    requires i < |lns| && forall k | 0 <= k < i :: lns[k] != lns[i]
    ensures RemoveListener(lns, lns[i]) == lns[..i] + lns[i + 1..]
  {
    if i > 0 { RemoveListenerAt(lns[1..], i - 1); }
  }

  lemma {:induction false} RemoveAbsentListener(lns: seq<Listener>, ln: Listener)
    requires ln !in lns
    ensures RemoveListener(lns, ln) == lns
  {
    if lns != [] { RemoveAbsentListener(lns[1..], ln); }
  }

  /** All members asked for the same group, key, address and port. */
  predicate Uniform(g: Group) {
    forall i | 0 <= i < |g.lns| ::
      var q := g.lns[i].request;
      q.group == g.group && q.groupKey == g.groupKey && q.addr == g.addr && q.port == g.port
  }

  lemma ListenUniform<Id>(ps: PortState<Id>, ps': PortState<Id>, id: Id, g: Group, g': Group,
                          ln: nat, q: Request, os: Answers, r: Listened)
    requires q.name in ps.reserved ==> ps.reserved[q.name] in ps.records
    requires Uniform(g) && ListenStep(ps, ps', id, g, g', ln, q, os, r)
    ensures Uniform(g')
  {
  }

  lemma {:induction false} RemoveUniform(g: Group, ln: Listener)
    requires Uniform(g)
    ensures Uniform(g.(lns := RemoveListener(g.lns, ln)))
  {
    if ln in g.lns {
      var i := FirstOf(g.lns, ln);
      RemoveListenerAt(g.lns, i);
    } else {
      RemoveAbsentListener(g.lns, ln);
    }
  }

  lemma FirstOf(lns: seq<Listener>, ln: Listener) returns (i: nat)
    requires ln in lns
    ensures i < |lns| && lns[i] == ln && forall k | 0 <= k < i :: lns[k] != ln
  {
    i := 0;
    while lns[i] != ln
      invariant i < |lns| && forall k | 0 <= k < i :: lns[k] != ln
      decreases |lns| - i
    {
      assert exists j :: i < j < |lns| && lns[j] == ln;
      i := i + 1;
    }
  }

  // ---------------------------------------------------------------- the whole server

  /** The port manager, the ports on which the server's sockets listen, the groups that have
      members, and the ports of proxies outside groups. */
  datatype Server<Id(==)> = Server(
    ports: PortState<Id>, listening: set<int>, groups: map<string, Group>, solos: map<nat, int>)

  /** The system's side: a port on which someone listens cannot be bound; an explicit port is the
      one that gets bound; asking for port 0 binds some port that is not in use. */
  ghost predicate Honest<Id(!new)>(s: Server<Id>, name: string, os: Answers, asked: int)
    requires name in s.ports.reserved ==> s.ports.reserved[name] in s.ports.records
  {
    && (os.first && name in s.ports.reserved ==>
          s.ports.records[s.ports.reserved[name]].port !in s.listening)
    && (forall p | os.probe(p) :: p !in s.listening)
    && (os.bind.Some? ==>
          && os.bind.value !in s.listening && os.bind.value != 0
          && (asked != 0 ==> os.bind.value == asked))
  }

  function At<Id(!new)>(s: Server<Id>, group: string): Group {
    if group in s.groups then s.groups[group] else NEW_GROUP
  }

  /** The record to come is new, and the name's reservation is a record that exists. */
  ghost predicate Ready<Id(!new)>(s: Server<Id>, id: Id, name: string) {
    && id !in s.ports.records
    && (name in s.ports.reserved ==> s.ports.reserved[name] in s.ports.records)
  }

  /** A proxy listens in a group. */
  ghost predicate GroupListen<Id(!new)>(s: Server<Id>, s': Server<Id>, id: Id,
                                        ln: nat, q: Request, os: Answers, r: Listened)
  {
    && Ready(s, id, q.name) && Honest(s, q.name, os, q.port)
    && exists g' ::
         && ListenStep(s.ports, s'.ports, id, At(s, q.group), g', ln, q, os, r)
         && GroupOutcome(s, s', q.group, g', r)
  }

  predicate GroupOutcome<Id(!new,==)>(s: Server<Id>, s': Server<Id>, group: string, g': Group, r: Listened) {
    && s'.solos == s.solos
    && s'.groups == (if g'.lns == [] then s.groups else s.groups[group := g'])
    && s'.listening == (if At(s, group).lns == [] && r.Listening? then s.listening + {g'.bound} else s.listening)
  }

  /** A group member closes its listener. */
  ghost predicate GroupClose<Id(!new)>(s: Server<Id>, s': Server<Id>, group: string, ln: Listener, now: int) {
    && group in s.groups && ln in s.groups[group].lns
    && var g := s.groups[group];
       var left := RemoveListener(g.lns, ln);
       && s'.solos == s.solos
       && if left == [] then
            && (g.realPort in s.ports.used ==> s.ports.used[g.realPort] in s.ports.records)
            && s' == Server(ReleaseFrom(s.ports, g.realPort, now), s.listening - {g.bound}, s.groups - {group}, s.solos)
          else s' == s.(groups := s.groups[group := g.(lns := left)])
  }

  /** A proxy outside groups runs: it acquires a port and listens on the port it got. If that
      fails, it releases the port. */
  ghost predicate SoloRun<Id(!new)>(s: Server<Id>, s': Server<Id>, id: Id, proxy: nat,
                                    name: string, port: int, os: Answers, acquired: Acquired)
  {
    && Ready(s, id, name) && proxy !in s.solos
    && Honest(s, name, os, if acquired.Port? then acquired.port else 0)
    && exists ps ::
         && AcquireStep(s.ports, ps, id, name, port, os.now, os.first, os.probe, acquired)
         && SoloOutcome(s, s', ps, proxy, os, acquired)
  }

  ghost predicate SoloOutcome<Id(!new)>(s: Server<Id>, s': Server<Id>, ps: PortState<Id>,
                                        proxy: nat, os: Answers, acquired: Acquired)
  {
    if acquired.NoPort? then s' == s.(ports := ps)
    else
      var p := acquired.port;
      if os.bind.Some? then s' == Server(ps, s.listening + {os.bind.value}, s.groups, s.solos[proxy := p])
      else (p in ps.used ==> ps.used[p] in ps.records) && s' == s.(ports := ReleaseFrom(ps, p, os.now))
  }

  ghost predicate SoloClose<Id(!new)>(s: Server<Id>, s': Server<Id>, proxy: nat, now: int) {
    && proxy in s.solos
    && var p := s.solos[proxy];
       && (p in s.ports.used ==> s.ports.used[p] in s.ports.records)
       && s' == Server(ReleaseFrom(s.ports, p, now), s.listening - {p}, s.groups, s.solos - {proxy})
  }

  ghost predicate CleanRound<Id(!new)>(s: Server<Id>, s': Server<Id>, now: int) {
    && (forall n | n in s.ports.reserved :: s.ports.reserved[n] in s.ports.records)
    && s' == s.(ports := Clean(s.ports, now))
  }

  // ---------------------------------------------------------------- ports held once

  /** A group sits under its own name, has members who all asked alike, and holds one used port:
      the one that was asked for, on which its socket listens. */
  ghost predicate GroupHolds<Id(!new)>(s: Server<Id>, name: string) {
    name in s.groups ==>
      var g := s.groups[name];
      && g.lns != [] && Uniform(g) && g.group == name
      && g.bound == g.realPort && g.realPort in s.ports.used && g.realPort in s.listening
  }

  ghost predicate SoloHolds<Id(!new)>(s: Server<Id>, proxy: nat) {
    proxy in s.solos ==> s.solos[proxy] in s.ports.used && s.solos[proxy] in s.listening
  }

  ghost predicate HeldOnce<Id(!new)>(s: Server<Id>) {
    && (forall a, b | a in s.groups && b in s.groups && a != b :: s.groups[a].realPort != s.groups[b].realPort)
    && (forall a, p | a in s.groups && p in s.solos :: s.groups[a].realPort != s.solos[p])
    && (forall p, p' | p in s.solos && p' in s.solos && p != p' :: s.solos[p] != s.solos[p'])
  }

  ghost predicate Good<Id(!new)>(s: Server<Id>, allowed: set<int>) {
    && Conserved(s.ports, allowed) && HeldOnce(s)
    && (forall a :: GroupHolds(s, a)) && (forall p :: SoloHolds(s, p))
  }

  lemma HeldListen<Id(!new)>(s: Server<Id>, allowed: set<int>)
    requires Good(s, allowed)
    ensures forall a | a in s.groups :: s.groups[a].realPort in s.listening
    ensures forall p | p in s.solos :: s.solos[p] in s.listening
  {
    forall a | a in s.groups ensures s.groups[a].realPort in s.listening { assert GroupHolds(s, a); }
    forall p | p in s.solos ensures s.solos[p] in s.listening { assert SoloHolds(s, p); }
  }

  /** What an honest system allows an acquisition to be. */
  lemma HonestAcquire<Id(!new)>(s: Server<Id>, ps: PortState<Id>, allowed: set<int>, id: Id, name: string,
                          port: int, os: Answers, asked: int, acquired: Acquired)
    requires Conserved(s.ports, allowed) && Ready(s, id, name) && Honest(s, name, os, asked)
    requires AcquireStep(s.ports, ps, id, name, port, os.now, os.first, os.probe, acquired)
    ensures Conserved(ps, allowed)
    ensures s.ports.used.Keys <= ps.used.Keys
    ensures acquired.Port? ==>
              acquired.port !in s.listening && acquired.port in allowed && acquired.port in ps.used
              && (port != 0 ==> acquired.port == port)
  {
    HandsOutUsedExactly(s.ports, ps, allowed, id, name, port, os.now, os.first, os.probe, acquired);
    if acquired.NoPort? {
      FailedTake(s.ports, ps, id, name, port, os.now, os.first, os.probe, acquired);
    }
  }

  /** The listen opened the group's socket on another port than the one it acquired. */
  predicate Misses<Id(!new,==)>(s: Server<Id>, s': Server<Id>, group: string, r: Listened) {
    At(s, group).lns == [] && r.Listening? && At(s', group).bound != r.realPort
  }

  /** A group opened on a port that nobody held, with its socket on that port. */
  lemma OpenGood<Id(!new)>(s: Server<Id>, s': Server<Id>, allowed: set<int>, g': Group)
    requires Good(s, allowed) && Conserved(s'.ports, allowed) && s.ports.used.Keys <= s'.ports.used.Keys
    requires s'.groups == s.groups[g'.group := g'] && s'.solos == s.solos
    requires g'.group !in s.groups && g'.lns != [] && Uniform(g') && g'.bound == g'.realPort
    requires g'.realPort !in s.listening && g'.realPort in s'.ports.used
    requires s'.listening == s.listening + {g'.realPort}
    ensures Good(s', allowed)
  {
    HeldListen(s, allowed);
    forall a ensures GroupHolds(s', a) { assert GroupHolds(s, a); }
    forall p ensures SoloHolds(s', p) { assert SoloHolds(s, p); }
  }

  /** A step that opens no socket and keeps, of a group with members, all but the list. */
  lemma SameHoldersGood<Id(!new)>(s: Server<Id>, s': Server<Id>, allowed: set<int>, group: string)
    requires Good(s, allowed) && Conserved(s'.ports, allowed) && s.ports.used.Keys <= s'.ports.used.Keys
    requires s'.solos == s.solos && s'.listening == s.listening
    requires s'.groups == s.groups
             || (group in s.groups && exists lns ::
                   s'.groups == s.groups[group := s.groups[group].(lns := lns)]
                   && lns != [] && Uniform(s.groups[group].(lns := lns)))
    ensures Good(s', allowed)
  {
    forall a ensures GroupHolds(s', a) { assert GroupHolds(s, a); }
    forall p ensures SoloHolds(s', p) { assert SoloHolds(s, p); }
  }

  /** Listening in a group keeps every port held once, exactly when the group's socket is on the
      port that was acquired for it. */
  lemma GroupListenGoodExactly<Id(!new)>(s: Server<Id>, s': Server<Id>, allowed: set<int>, id: Id,
                                         ln: nat, q: Request, os: Answers, r: Listened)
    requires Good(s, allowed) && GroupListen(s, s', id, ln, q, os, r)
    ensures Good(s', allowed) <==> !Misses(s, s', q.group, r)
    ensures q.port != 0 || At(s, q.group).lns != [] ==> Good(s', allowed)
  {
    var g := At(s, q.group);
    assert GroupHolds(s, q.group);
    if g.lns == [] {
      var acquired: Acquired, g': Group :|
        && AcquireStep(s.ports, s'.ports, id, q.name, q.port, os.now, os.first, os.probe, acquired)
        && FirstOutcome(g, g', ln, q, os, acquired, r)
        && GroupOutcome(s, s', q.group, g', r);
      HonestAcquire(s, s'.ports, allowed, id, q.name, q.port, os, q.port, acquired);
      if Misses(s, s', q.group, r) {
        assert !GroupHolds(s', q.group);
      } else if r.Listening? {
        OpenGood(s, s', allowed, g');
      } else {
        SameHoldersGood(s, s', allowed, q.group);
      }
    } else {
      var g' :| ListenStep(s.ports, s'.ports, id, g, g', ln, q, os, r) && GroupOutcome(s, s', q.group, g', r);
      ListenUniform(s.ports, s'.ports, id, g, g', ln, q, os, r);
      assert g' == g.(lns := g'.lns) && s'.groups == s.groups[q.group := g'];
      SameHoldersGood(s, s', allowed, q.group);
    }
  }

  lemma GroupCloseGood<Id(!new)>(s: Server<Id>, s': Server<Id>, allowed: set<int>, group: string,
                                 ln: Listener, now: int)
    requires Good(s, allowed) && GroupClose(s, s', group, ln, now)
    ensures Good(s', allowed)
    ensures var g := s.groups[group];
            && (g.lns == [ln] <==> group !in s'.groups)
            && (g.lns == [ln] <==> g.realPort in s'.ports.free)
  {
    var g := s.groups[group];
    assert GroupHolds(s, group);
    ReleaseConserves(s.ports, allowed, g.realPort, now);
    RemoveUniform(g, ln);
    var i := FirstOf(g.lns, ln);
    RemoveListenerAt(g.lns, i);
    forall a ensures GroupHolds(s', a) { assert GroupHolds(s, a); }
    forall p ensures SoloHolds(s', p) { assert SoloHolds(s, p); }
  }

  /** With the port acquired, and no listener on it before, the rest of the run keeps ports held once. */
  lemma SoloOutcomeGood<Id(!new)>(s: Server<Id>, s': Server<Id>, ps: PortState<Id>, allowed: set<int>,
                                  proxy: nat, os: Answers, acquired: Acquired)
    requires Good(s, allowed) && Conserved(ps, allowed) && s.ports.used.Keys <= ps.used.Keys && proxy !in s.solos
    requires SoloOutcome(s, s', ps, proxy, os, acquired)
    requires acquired.Port? ==> acquired.port !in s.listening && acquired.port in ps.used
    requires acquired.Port? && os.bind.Some? ==> os.bind.value == acquired.port
    ensures Good(s', allowed)
  {
    HeldListen(s, allowed);
    if acquired.Port? { ReleaseConserves(ps, allowed, acquired.port, os.now); }
    forall a ensures GroupHolds(s', a) { assert GroupHolds(s, a); }
    forall p ensures SoloHolds(s', p) { assert SoloHolds(s, p); }
  }

  lemma SoloRunGood<Id(!new)>(s: Server<Id>, s': Server<Id>, allowed: set<int>, id: Id,
                        proxy: nat, name: string, port: int, os: Answers, acquired: Acquired)
    requires Good(s, allowed) && 0 !in allowed
    requires SoloRun(s, s', id, proxy, name, port, os, acquired)
    ensures Good(s', allowed)
  {
    var ps :|
      && AcquireStep(s.ports, ps, id, name, port, os.now, os.first, os.probe, acquired)
      && SoloOutcome(s, s', ps, proxy, os, acquired);
    HonestAcquire(s, ps, allowed, id, name, port, os, if acquired.Port? then acquired.port else 0, acquired);
    SoloOutcomeGood(s, s', ps, allowed, proxy, os, acquired);
  }

  lemma SoloCloseGood<Id(!new)>(s: Server<Id>, s': Server<Id>, allowed: set<int>, proxy: nat, now: int)
    requires Good(s, allowed) && SoloClose(s, s', proxy, now)
    ensures Good(s', allowed) && s.solos[proxy] in s'.ports.free
  {
    assert SoloHolds(s, proxy);
    ReleaseConserves(s.ports, allowed, s.solos[proxy], now);
    forall a ensures GroupHolds(s', a) { assert GroupHolds(s, a); }
    forall p ensures SoloHolds(s', p) { assert SoloHolds(s, p); }
  }

  // ---------------------------------------------------------------- runs

  datatype Event<Id> =
    | ListenEvent(id: Id, ln: nat, q: Request, os: Answers, r: Listened)
    | CloseEvent(group: string, listener: Listener, now: int)
    | RunEvent(rid: Id, proxy: nat, name: string, port: int, ros: Answers, acquired: Acquired)
    | StopEvent(stopped: nat, at: int)
    | CleanEvent(time: int)

  ghost predicate Happens<Id(!new)>(s: Server<Id>, e: Event<Id>, s': Server<Id>) {
    match e
    case ListenEvent(id, ln, q, os, r) => GroupListen(s, s', id, ln, q, os, r)
    case CloseEvent(group, ln, now) => GroupClose(s, s', group, ln, now)
    case RunEvent(id, proxy, name, port, os, acquired) => SoloRun(s, s', id, proxy, name, port, os, acquired)
    case StopEvent(proxy, now) => SoloClose(s, s', proxy, now)
    case CleanEvent(now) => CleanRound(s, s', now)
  }

  /** A listen that opens a group names the port. */
  predicate Explicit<Id(!new)>(s: Server<Id>, e: Event<Id>) {
    e.ListenEvent? && At(s, e.q.group).lns == [] ==> e.q.port != 0
  }

  lemma HappensGood<Id(!new)>(s: Server<Id>, e: Event<Id>, s': Server<Id>, allowed: set<int>)
    requires Good(s, allowed) && 0 !in allowed && Happens(s, e, s') && Explicit(s, e)
    ensures Good(s', allowed)
  {
    match e
    case ListenEvent(id, ln, q, os, r) => GroupListenGoodExactly(s, s', allowed, id, ln, q, os, r);
    case CloseEvent(group, ln, now) => GroupCloseGood(s, s', allowed, group, ln, now);
    case RunEvent(id, proxy, name, port, os, acquired) =>
      SoloRunGood(s, s', allowed, id, proxy, name, port, os, acquired);
    case StopEvent(proxy, now) => SoloCloseGood(s, s', allowed, proxy, now);
    case CleanEvent(now) =>
      CleanConserves(s.ports, allowed, now);
      forall a ensures GroupHolds(s', a) { assert GroupHolds(s, a); }
      forall p ensures SoloHolds(s', p) { assert SoloHolds(s, p); }
  }

  // ---------------------------------------------------------------- what is answered

  /** What it takes to join: the request must agree with that of the first member in group, address, port
      and key; the first disagreement is the error, and whoever joins comes last. */
  lemma JoinedExactly(g: Group, g': Group, ln: nat, q: Request, r: Listened)
    requires g.lns != [] && Uniform(g) && JoinListen(g, g', ln, q, r)
    ensures var first := g.lns[0].request;
            && (r == Refused(ParamsInvalid) <==> first.group != q.group || first.addr != q.addr)
            && (r == Refused(DifferentPort) <==>
                  first.group == q.group && first.addr == q.addr && first.port != q.port)
            && (r == Refused(AuthFailed) <==>
                  first.group == q.group && first.addr == q.addr && first.port == q.port
                  && first.groupKey != q.groupKey)
            && (r.Listening? ==>
                  && r.ln == Listener(ln, q) && r.realPort == g.realPort
                  && g'.lns == g.lns + [Listener(ln, q)] && g' == g.(lns := g'.lns))
            && (r.Refused? ==> g' == g && r.error in {ParamsInvalid, DifferentPort, AuthFailed})
  {
  }

  /** What it takes to open a group on a named port: the port is allowed, not in use, and can be bound,
      both when it is probed and when it is listened on. */
  lemma OpenedExactly<Id(!new)>(s: Server<Id>, s': Server<Id>, allowed: set<int>, id: Id,
                                ln: nat, q: Request, os: Answers, r: Listened)
    requires Good(s, allowed) && GroupListen(s, s', id, ln, q, os, r) && q.group !in s.groups && q.port != 0
    ensures var free := q.port in allowed && q.port !in s.ports.used;
            && (r.Listening? <==> free && os.probe(q.port) && os.bind.Some?)
            && (r == Refused(BindFailed) <==> free && os.probe(q.port) && os.bind.None?)
            && (r == Refused(AcquireFailed(PortUnAvailable)) <==> free && !os.probe(q.port))
            && (r == Refused(AcquireFailed(PortAlreadyUsed)) <==> q.port in s.ports.used)
            && (r == Refused(AcquireFailed(PortNotAllowed)) <==> q.port !in allowed)
            && (r.Listening? ==>
                  && r.ln == Listener(ln, q) && r.realPort == q.port && q.group in s'.groups
                  && s'.groups[q.group] == Group(q.group, q.groupKey, q.addr, q.port, q.port, q.port, [r.ln]))
            && (r.Refused? ==> s'.groups == s.groups && s'.listening == s.listening)
  {
    var acquired: Acquired, g': Group :|
      && AcquireStep(s.ports, s'.ports, id, q.name, q.port, os.now, os.first, os.probe, acquired)
      && FirstOutcome(At(s, q.group), g', ln, q, os, acquired, r)
      && GroupOutcome(s, s', q.group, g', r);
    NamedPortExactly(s.ports, s'.ports, allowed, id, q.name, q.port, os.now, os.first, os.probe, acquired);
  }

  /** What it takes for a proxy outside groups to run on a named port. If it cannot listen on the port
      that it acquired, the port is free again. */
  lemma SoloExactly<Id(!new)>(s: Server<Id>, s': Server<Id>, allowed: set<int>, id: Id,
                              proxy: nat, name: string, port: int, os: Answers, acquired: Acquired)
    requires Good(s, allowed) && SoloRun(s, s', id, proxy, name, port, os, acquired) && port != 0
    ensures var free := port in allowed && port !in s.ports.used;
            && (proxy in s'.solos <==> free && os.probe(port) && os.bind.Some?)
            && (proxy in s'.solos ==>
                  s'.solos == s.solos[proxy := port] && s'.listening == s.listening + {port} && port in s'.ports.used)
            && (proxy !in s'.solos ==>
                  && s'.solos == s.solos && s'.listening == s.listening
                  && s'.ports.free == s.ports.free && s'.ports.used.Keys == s.ports.used.Keys)
    ensures s'.groups == s.groups
  {
    var ps :|
      && AcquireStep(s.ports, ps, id, name, port, os.now, os.first, os.probe, acquired)
      && SoloOutcome(s, s', ps, proxy, os, acquired);
    NamedPortExactly(s.ports, ps, allowed, id, name, port, os.now, os.first, os.probe, acquired);
    if acquired.Port? {
      assert s.ports.free - {port} + {port} == s.ports.free;
      assert s.ports.used.Keys + {port} - {port} == s.ports.used.Keys;
    }
  }

  // ---------------------------------------------------------------- groups opened on port 0

  /** Some next step of an honest server makes two holders hold one port. */
  ghost predicate SharingNext<Id(!new)>(s: Server<Id>) {
    exists e, s' :: Happens(s, e, s') && !HeldOnce(s')
  }

  /** A new holder of a port on which nobody listens leaves every port held once. */
  lemma OpenHeldOnce<Id(!new)>(s: Server<Id>, s': Server<Id>, allowed: set<int>, g': Group)
    requires Good(s, allowed) && g'.group !in s.groups && g'.realPort !in s.listening
    requires s'.groups == s.groups[g'.group := g'] && s'.solos == s.solos
    ensures HeldOnce(s')
  {
    HeldListen(s, allowed);
  }

  /** What opening a group is made of. */
  lemma Opening<Id(!new)>(s: Server<Id>, s': Server<Id>, allowed: set<int>, id: Id,
                          ln: nat, q: Request, os: Answers, r: Listened) returns (p: int, g': Group)
    requires Good(s, allowed) && GroupListen(s, s', id, ln, q, os, r)
    requires At(s, q.group).lns == [] && r.Listening?
    ensures q.group !in s.groups && g'.group == q.group && g'.realPort == p == r.realPort
    ensures os.bind == Some(g'.bound) && s'.listening == s.listening + {g'.bound}
    ensures s'.groups == s.groups[q.group := g'] && s'.solos == s.solos
    ensures p in allowed && p !in s.listening && Remembers(s'.ports, q.name, id, p)
    ensures p in s.ports.free || ReservesPort(s.ports, q.name, p) || q.port != 0
    ensures s'.ports.records.Keys == s.ports.records.Keys + {id}
  {
    assert GroupHolds(s, q.group);
    var g := At(s, q.group);
    var acquired: Acquired, h: Group :|
      && AcquireStep(s.ports, s'.ports, id, q.name, q.port, os.now, os.first, os.probe, acquired)
      && FirstOutcome(g, h, ln, q, os, acquired, r)
      && GroupOutcome(s, s', q.group, h, r);
    assert acquired.Port? && os.bind.Some?;
    assert h == Group(q.group, q.groupKey, q.addr, q.port, acquired.port, os.bind.value, [Listener(ln, q)]);
    HonestAcquire(s, s'.ports, allowed, id, q.name, q.port, os, q.port, acquired);
    p, g' := acquired.port, h;
  }

  predicate ReservesPort<Id>(s: PortState<Id>, name: string, p: int) {
    name in s.reserved && s.reserved[name] in s.records && s.records[s.reserved[name]].port == p
  }

  /** As long as each socket is on its holder's port, no single step makes a port shared. */
  lemma GoodStepHeldOnce<Id(!new)>(s: Server<Id>, e: Event<Id>, s': Server<Id>, allowed: set<int>)
    requires Good(s, allowed) && 0 !in allowed && Happens(s, e, s')
    ensures HeldOnce(s')
  {
    if Explicit(s, e) {
      HappensGood(s, e, s', allowed);
    } else if Misses(s, s', e.q.group, e.r) {
      var p, g' := Opening(s, s', allowed, e.id, e.ln, e.q, e.os, e.r);
      OpenHeldOnce(s, s', allowed, g');
    } else {
      GroupListenGoodExactly(s, s', allowed, e.id, e.ln, e.q, e.os, e.r);
    }
  }

  /** In every state with a group on whose port nobody listens, the name that has the port reserved
      can run alone, ask for port 0, and be given the group's port. */
  lemma UnheardPortShared<Id(!new)>(s: Server<Id>, group: string, name: string, held: Id, id: Id, proxy: nat)
    returns (e: Event<Id>, s': Server<Id>)
    requires group in s.groups && s.groups[group].realPort !in s.listening && s.groups[group].realPort != 0
    requires Remembers(s.ports, name, held, s.groups[group].realPort)
    requires id !in s.ports.records && proxy !in s.solos
    ensures Happens(s, e, s') && e.RunEvent? && e.name == name
    ensures s'.groups == s.groups && proxy in s'.solos && s'.solos[proxy] == s'.groups[group].realPort
    ensures !HeldOnce(s')
  {
    var p := s.groups[group].realPort;
    var os := Answers(0, true, (x: int) => false, Some(p));
    var ps := TakeFrom(s.ports, id, name, p, 0);
    s' := Server(ps, s.listening + {p}, s.groups, s.solos[proxy := p]);
    e := RunEvent(id, proxy, name, 0, os, Port(p));
    assert AcquireStep(s.ports, ps, id, name, 0, 0, true, os.probe, Port(p));
    assert SoloOutcome(s, s', ps, proxy, os, Port(p));
    assert group in s'.groups && proxy in s'.solos;
  }

  /** Once a group's socket has missed its port, the port can be given away in the next step. */
  lemma MissedShares<Id(!new)>(s: Server<Id>, s': Server<Id>, allowed: set<int>, id: Id, ln: nat, q: Request,
                               os: Answers, r: Listened, id': Id, proxy: nat)
    requires Good(s, allowed) && 0 !in allowed && GroupListen(s, s', id, ln, q, os, r) && Misses(s, s', q.group, r)
    requires id' != id && id' !in s.ports.records && proxy !in s.solos
    ensures SharingNext(s')
  {
    var p, g' := Opening(s, s', allowed, id, ln, q, os, r);
    var e, s'' := UnheardPortShared(s', q.group, q.name, id, id', proxy);
  }

  /** The request opens a group with port 0, `p` can be acquired for it, and its socket can get `other`. */
  ghost predicate CanMiss<Id(!new)>(s: Server<Id>, q: Request, p: int, other: int) {
    && q.port == 0 && q.group !in s.groups
    && p !in s.listening && (p in s.ports.free || ReservesPort(s.ports, q.name, p))
    && other !in s.listening && other != 0 && other != p
  }

  lemma CanMissDoes<Id(!new)>(s: Server<Id>, id: Id, ln: nat, q: Request, p: int, other: int)
    returns (s': Server<Id>, os: Answers, r: Listened)
    requires CanMiss(s, q, p, other) && Ready(s, id, q.name) && p != 0
    ensures GroupListen(s, s', id, ln, q, os, r) && Misses(s, s', q.group, r)
  {
    os := Answers(0, p !in s.ports.free, (x: int) => x == p, Some(other));
    r := Listening(Listener(ln, q), p);
    var ps := TakeFrom(s.ports, id, q.name, p, 0);
    var g' := Group(q.group, q.groupKey, q.addr, 0, p, other, [Listener(ln, q)]);
    s' := Server(ps, s.listening + {other}, s.groups[q.group := g'], s.solos);
    if p in s.ports.free { assert PicksPort(s.ports, ps, id, q.name, 0, os.probe, Port(p), p); }
    assert AcquireStep(s.ports, ps, id, q.name, 0, 0, os.first, os.probe, Port(p));
    assert FirstOutcome(NEW_GROUP, g', ln, q, os, Port(p), r);
    assert ListenStep(s.ports, ps, id, NEW_GROUP, g', ln, q, os, r);
    assert GroupOutcome(s, s', q.group, g', r);
  }

  /** Listening can lead to a shared port, in the very next step of an honest server, if and only if
      it opens a group with port 0 while a port can be acquired and another one can be bound. */
  lemma ZeroSharesExactly<Id(!new)>(s: Server<Id>, allowed: set<int>, id: Id, ln: nat, q: Request, id': Id, proxy: nat)
    requires Good(s, allowed) && 0 !in allowed && Ready(s, id, q.name)
    requires id' != id && id' !in s.ports.records && proxy !in s.solos
    ensures (exists s', os, r :: GroupListen(s, s', id, ln, q, os, r) && SharingNext(s'))
            <==> exists p, other :: CanMiss(s, q, p, other)
  {
    forall p, other | CanMiss(s, q, p, other)
      ensures exists s', os, r :: GroupListen(s, s', id, ln, q, os, r) && SharingNext(s')
    {
      assert ReservedOk(s.ports, allowed, q.name);
      var s', os, r := CanMissDoes(s, id, ln, q, p, other);
      MissedShares(s, s', allowed, id, ln, q, os, r, id', proxy);
    }
    forall s', os, r | GroupListen(s, s', id, ln, q, os, r) && SharingNext(s')
      ensures exists p, other :: CanMiss(s, q, p, other)
    {
      SharingFollows(s, s', allowed, id, ln, q, os, r);
    }
  }

  /** A listen after which a port can be shared was one that could miss its port. */
  lemma SharingFollows<Id(!new)>(s: Server<Id>, s': Server<Id>, allowed: set<int>, id: Id,
                                 ln: nat, q: Request, os: Answers, r: Listened)
    requires Good(s, allowed) && 0 !in allowed && GroupListen(s, s', id, ln, q, os, r) && SharingNext(s')
    ensures exists p, other :: CanMiss(s, q, p, other)
  {
    GroupListenGoodExactly(s, s', allowed, id, ln, q, os, r);
    var e, s'' :| Happens(s', e, s'') && !HeldOnce(s'');
    if !Misses(s, s', q.group, r) {
      GoodStepHeldOnce(s', e, s'', allowed);
      assert false;
    }
    var p, g' := Opening(s, s', allowed, id, ln, q, os, r);
    assert CanMiss(s, q, p, g'.bound);
  }

  lemma OtherSocket(g: Group, g': Group, ln: nat, q: Request, os: Answers, acquired: Acquired, r: Listened, other: int)
    requires FirstOutcome(g, g', ln, q, os, acquired, r) && r.Listening?
    ensures FirstOutcome(g, g'.(bound := other), ln, q, os.(bind := Some(other)), acquired, r)
    ensures g'.lns != [] && acquired.Port? && r.realPort == acquired.port
  {
  }

  /** With port 0 the listen depends on luck: had the system answered with any other port, the
      socket would have missed the acquired one. */
  lemma ZeroCanMiss<Id(!new)>(s: Server<Id>, s': Server<Id>, allowed: set<int>, id: Id,
                              ln: nat, q: Request, os: Answers, r: Listened, other: int)
    returns (s'': Server<Id>)
    requires Good(s, allowed) && GroupListen(s, s', id, ln, q, os, r)
    requires q.port == 0 && At(s, q.group).lns == [] && r.Listening?
    requires other != 0 && other !in s.listening && other != r.realPort
    ensures GroupListen(s, s'', id, ln, q, os.(bind := Some(other)), r) && !Good(s'', allowed)
    ensures Misses(s, s'', q.group, r)
  {
    var g := At(s, q.group);
    var acquired: Acquired, g': Group :|
      && AcquireStep(s.ports, s'.ports, id, q.name, q.port, os.now, os.first, os.probe, acquired)
      && FirstOutcome(g, g', ln, q, os, acquired, r)
      && GroupOutcome(s, s', q.group, g', r);
    var os', g'' := os.(bind := Some(other)), g'.(bound := other);
    s'' := s'.(listening := s.listening + {other}, groups := s.groups[q.group := g'']);
    OtherSocket(g, g', ln, q, os, acquired, r, other);
    assert ListenStep(s.ports, s''.ports, id, g, g'', ln, q, os', r);
    assert GroupOutcome(s, s'', q.group, g'', r);
    GroupListenGoodExactly(s, s'', allowed, id, ln, q, os', r);
  }

  // ---------------------------------------------------------------- whole runs

  function Fresh<Id(!new)>(allowed: set<int>): Server<Id> {
    Server(PortState(map[], map[], allowed, map[]), {}, map[], map[])
  }

  ghost predicate Behavior<Id(!new)>(ss: seq<Server<Id>>, es: seq<Event<Id>>, allowed: set<int>) {
    && |ss| == |es| + 1 && ss[0] == Fresh(allowed)
    && forall i | 0 <= i < |es| :: Happens(ss[i], es[i], ss[i + 1])
  }

  /** In every run in which groups are opened on explicit ports, every group that has members holds one
      used port of its own, and so does every proxy outside groups. */
  lemma {:induction false} RunGood<Id(!new)>(ss: seq<Server<Id>>, es: seq<Event<Id>>, allowed: set<int>, i: nat)
    requires Behavior(ss, es, allowed) && 0 !in allowed && i < |ss|
    requires forall k | 0 <= k < |es| :: Explicit(ss[k], es[k])
    ensures Good(ss[i], allowed)
  {
    if i > 0 {
      RunGood(ss, es, allowed, i - 1);
      HappensGood(ss[i - 1], es[i - 1], ss[i], allowed);
    }
  }

  /** Some group or proxy holds the port. */
  ghost predicate HasHolder<Id(!new)>(s: Server<Id>, port: int) {
    || (exists a :: a in s.groups && s.groups[a].realPort == port)
    || (exists p :: p in s.solos && s.solos[p] == port)
  }

  /** No socket is left open without a holder. */
  ghost predicate NoneLeftOpen<Id(!new)>(s: Server<Id>) {
    forall port | port in s.listening :: HasHolder(s, port)
  }

  lemma ListenLeavesNone<Id(!new)>(s: Server<Id>, s': Server<Id>, allowed: set<int>, id: Id,
                                   ln: nat, q: Request, os: Answers, r: Listened)
    requires Good(s, allowed) && NoneLeftOpen(s) && GroupListen(s, s', id, ln, q, os, r)
    requires At(s, q.group).lns == [] ==> q.port != 0
    ensures NoneLeftOpen(s')
  {
    assert GroupHolds(s, q.group);
    if q.group !in s.groups {
      OpenedExactly(s, s', allowed, id, ln, q, os, r);
      forall port | port in s'.listening ensures HasHolder(s', port) {
        if port in s.listening {
          assert HasHolder(s, port);
          HolderStays(s, s', port);
        } else {
          assert q.group in s'.groups && s'.groups[q.group].realPort == port;
        }
      }
    } else {
      forall port | port in s'.listening ensures HasHolder(s', port) {
        assert HasHolder(s, port);
        HolderStays(s, s', port);
      }
    }
  }

  lemma HolderStays<Id(!new)>(s: Server<Id>, s': Server<Id>, port: int)
    requires HasHolder(s, port) && s'.solos == s.solos
    requires forall a | a in s.groups :: a in s'.groups && s'.groups[a].realPort == s.groups[a].realPort
    ensures HasHolder(s', port)
  {
    if a :| a in s.groups && s.groups[a].realPort == port {
      assert a in s'.groups && s'.groups[a].realPort == port;
    }
  }

  lemma GroupCloseLeavesNone<Id(!new)>(s: Server<Id>, s': Server<Id>, allowed: set<int>, group: string,
                                       ln: Listener, now: int)
    requires Good(s, allowed) && NoneLeftOpen(s) && GroupClose(s, s', group, ln, now)
    ensures NoneLeftOpen(s')
  {
    assert GroupHolds(s, group);
    forall port | port in s'.listening ensures HasHolder(s', port) {
      assert HasHolder(s, port);
      if a :| a in s.groups && s.groups[a].realPort == port {
        assert a in s'.groups && s'.groups[a].realPort == port;
      }
    }
  }

  lemma SoloLeavesNone<Id(!new)>(s: Server<Id>, s': Server<Id>, allowed: set<int>, e: Event<Id>)
    requires Good(s, allowed) && 0 !in allowed && NoneLeftOpen(s) && Happens(s, e, s') && (e.RunEvent? || e.StopEvent?)
    ensures NoneLeftOpen(s')
  {
    if e.RunEvent? { SoloListens(s, s', allowed, e.rid, e.proxy, e.name, e.port, e.ros, e.acquired); }
    forall port | port in s'.listening ensures HasHolder(s', port) {
      if port in s.listening {
        assert HasHolder(s, port);
        if p :| p in s.solos && s.solos[p] == port {
          assert p in s'.solos && s'.solos[p] == port;
        } else {
          HolderStays(s, s'.(solos := s.solos), port);
        }
      } else {
        assert e.RunEvent? && e.proxy in s'.solos && s'.solos[e.proxy] == port;
      }
    }
  }

  /** The socket of a proxy outside groups is on the port that it holds. */
  lemma SoloListens<Id(!new)>(s: Server<Id>, s': Server<Id>, allowed: set<int>, id: Id,
                              proxy: nat, name: string, port: int, os: Answers, acquired: Acquired)
    requires Good(s, allowed) && 0 !in allowed && SoloRun(s, s', id, proxy, name, port, os, acquired)
    ensures s'.groups == s.groups
    ensures if proxy in s'.solos then
              s'.solos == s.solos[proxy := s'.solos[proxy]] && s'.listening == s.listening + {s'.solos[proxy]}
            else s'.solos == s.solos && s'.listening == s.listening
  {
    var ps :|
      && AcquireStep(s.ports, ps, id, name, port, os.now, os.first, os.probe, acquired)
      && SoloOutcome(s, s', ps, proxy, os, acquired);
    HonestAcquire(s, ps, allowed, id, name, port, os, if acquired.Port? then acquired.port else 0, acquired);
  }

  /** In every such run a port is listened on if and only if a group or a proxy holds it. */
  lemma {:induction false} RunListensExactly<Id(!new)>(ss: seq<Server<Id>>, es: seq<Event<Id>>, allowed: set<int>,
                                                       i: nat, port: int)
    requires Behavior(ss, es, allowed) && 0 !in allowed && i < |ss|
    requires forall k | 0 <= k < |es| :: Explicit(ss[k], es[k])
    ensures port in ss[i].listening <==> HasHolder(ss[i], port)
  {
    RunGood(ss, es, allowed, i);
    HeldListen(ss[i], allowed);
    RunLeavesNone(ss, es, allowed, i);
  }

  lemma {:induction false} RunLeavesNone<Id(!new)>(ss: seq<Server<Id>>, es: seq<Event<Id>>, allowed: set<int>, i: nat)
    requires Behavior(ss, es, allowed) && 0 !in allowed && i < |ss|
    requires forall k | 0 <= k < |es| :: Explicit(ss[k], es[k])
    ensures NoneLeftOpen(ss[i])
  {
    if i > 0 {
      var s, e, s' := ss[i - 1], es[i - 1], ss[i];
      RunLeavesNone(ss, es, allowed, i - 1);
      RunGood(ss, es, allowed, i - 1);
      match e
      case ListenEvent(id, ln, q, os, r) => ListenLeavesNone(s, s', allowed, id, ln, q, os, r);
      case CloseEvent(group, ln, now) => GroupCloseLeavesNone(s, s', allowed, group, ln, now);
      case RunEvent(_, _, _, _, _, _) => SoloLeavesNone(s, s', allowed, e);
      case StopEvent(_, _) => SoloLeavesNone(s, s', allowed, e);
      case CleanEvent(_) => CleanLeavesNone(s, s');
    }
  }

  lemma CleanLeavesNone<Id(!new)>(s: Server<Id>, s': Server<Id>)
    requires NoneLeftOpen(s) && s'.groups == s.groups && s'.solos == s.solos && s'.listening == s.listening
    ensures NoneLeftOpen(s')
  {
    forall port | port in s'.listening ensures HasHolder(s', port) {
      assert HasHolder(s, port);
      HolderStays(s, s', port);
    }
  }

  /** In every such run no two holders of a port report the same address to their clients. */
  lemma RunAddressesDiffer<Id(!new)>(ss: seq<Server<Id>>, es: seq<Event<Id>>, allowed: set<int>, i: nat)
    requires Behavior(ss, es, allowed) && 0 !in allowed && i < |ss|
    requires forall k | 0 <= k < |es| :: Explicit(ss[k], es[k])
    ensures var groups, solos := ss[i].groups, ss[i].solos;
            && (forall a, b | a in groups && b in groups && a != b ::
                  RemoteAddr(groups[a].realPort) != RemoteAddr(groups[b].realPort))
            && (forall a, p | a in groups && p in solos ::
                  RemoteAddr(groups[a].realPort) != RemoteAddr(solos[p]))
            && (forall p, p' | p in solos && p' in solos && p != p' ::
                  RemoteAddr(solos[p]) != RemoteAddr(solos[p']))
  {
    RunGood(ss, es, allowed, i);
    forall x, y | RemoteAddr(x) == RemoteAddr(y) ensures x == y { AddressTellsPort(x, y); }
  }

  const ZERO_Q0 := Request("a", "g", "k", "", 0)
  const ZERO_Q1 := Request("a", "h", "k", "", 0)
  const ZERO_L0 := Listener(0, ZERO_Q0)
  const ZERO_L1 := Listener(1, ZERO_Q1)
  const ZERO_G0 := Group("g", "k", "", 0, 7, 9, [ZERO_L0])
  const ZERO_G1 := Group("h", "k", "", 0, 7, 11, [ZERO_L1])

  /** Four states of a server that may use port 7 only. */
  function ZeroPorts(i: nat): PortState<nat> {
    if i == 0 then PortState(map[], map[], {7}, map[])
    else if i == 1 then TakeFrom(ZeroPorts(0), 0, "a", 7, 0)
    else if i == 2 then TakeFrom(ZeroPorts(1), 1, "a", 7, 1)
    else ReleaseFrom(ZeroPorts(2), 7, 2)
  }

  function ZeroState(i: nat): Server<nat> {
    if i == 0 then Server(ZeroPorts(0), {}, map[], map[])
    else if i == 1 then Server(ZeroPorts(1), {9}, map["g" := ZERO_G0], map[])
    else if i == 2 then Server(ZeroPorts(2), {9, 11}, map["g" := ZERO_G0, "h" := ZERO_G1], map[])
    else Server(ZeroPorts(3), {9}, map["g" := ZERO_G0], map[])
  }

  function ZeroAnswers(i: nat): Answers {
    if i == 0 then Answers(0, false, (p: int) => true, Some(9)) else Answers(1, true, (p: int) => false, Some(11))
  }

  function ZeroEvent(i: nat): Event<nat> {
    if i == 0 then ListenEvent(0, 0, ZERO_Q0, ZeroAnswers(0), Listening(ZERO_L0, 7))
    else if i == 1 then ListenEvent(1, 1, ZERO_Q1, ZeroAnswers(1), Listening(ZERO_L1, 7))
    else CloseEvent("h", ZERO_L1, 2)
  }

  lemma ZeroFirst()
    ensures Happens(ZeroState(0), ZeroEvent(0), ZeroState(1))
  {
    var s, s', os, r := ZeroState(0), ZeroState(1), ZeroAnswers(0), Listening(ZERO_L0, 7);
    assert PicksPort(s.ports, s'.ports, 0, "a", 0, os.probe, Port(7), 7);
    assert AcquireStep(s.ports, s'.ports, 0, "a", 0, 0, os.first, os.probe, Port(7));
    assert FirstOutcome(NEW_GROUP, ZERO_G0, 0, ZERO_Q0, os, Port(7), r);
    assert ListenStep(s.ports, s'.ports, 0, NEW_GROUP, ZERO_G0, 0, ZERO_Q0, os, r);
    assert GroupOutcome(s, s', "g", ZERO_G0, r);
  }

  lemma ZeroSecond()
    ensures Happens(ZeroState(1), ZeroEvent(1), ZeroState(2))
  {
    var s, s', os, r := ZeroState(1), ZeroState(2), ZeroAnswers(1), Listening(ZERO_L1, 7);
    assert AcquireStep(s.ports, s'.ports, 1, "a", 0, 1, os.first, os.probe, Port(7));
    assert FirstOutcome(NEW_GROUP, ZERO_G1, 1, ZERO_Q1, os, Port(7), r);
    assert ListenStep(s.ports, s'.ports, 1, NEW_GROUP, ZERO_G1, 1, ZERO_Q1, os, r);
    assert GroupOutcome(s, s', "h", ZERO_G1, r);
  }

  lemma ZeroThird()
    ensures Happens(ZeroState(2), ZeroEvent(2), ZeroState(3))
  {
    var s := ZeroState(2);
    assert RemoveListener([ZERO_L1], ZERO_L1) == [];
    assert s.listening - {11} == {9} && s.groups - {"h"} == map["g" := ZERO_G0];
  }

  lemma ZeroHappens(i: nat)
    requires i < 3
    ensures Happens(ZeroState(i), ZeroEvent(i), ZeroState(i + 1))
  {
    if i == 0 { ZeroFirst(); } else if i == 1 { ZeroSecond(); } else { ZeroThird(); }
  }

  lemma ZeroShared()
    ensures ZeroState(0) == Fresh({7})
    ensures ZeroState(2).groups == map["g" := ZERO_G0, "h" := ZERO_G1]
    ensures ZeroState(3).groups == map["g" := ZERO_G0] && 7 in ZeroState(3).ports.free
  {
  }

  /** Without explicit ports the promise fails: a proxy name opens two groups with port 0 and both
      hold port 7; when the second group closes, port 7 is free although the first has a member. */
  lemma ZeroPortShared() returns (ss: seq<Server<nat>>, es: seq<Event<nat>>)
    ensures Behavior(ss, es, {7}) && |ss| == 4
    ensures "g" in ss[2].groups && "h" in ss[2].groups
    ensures ss[2].groups["g"].realPort == ss[2].groups["h"].realPort == 7
    ensures "g" in ss[3].groups && ss[3].groups["g"].lns != [] && 7 in ss[3].ports.free
  {
    es := seq(3, i requires 0 <= i < 3 => ZeroEvent(i));
    ss := seq(4, i requires 0 <= i < 4 => ZeroState(i));
    forall i | 0 <= i < |es| ensures Happens(ss[i], es[i], ss[i + 1]) { ZeroHappens(i); }
    assert ss[0] == ZeroState(0) && ss[2] == ZeroState(2) && ss[3] == ZeroState(3);
    ZeroShared();
  }

  // ---------------------------------------------------------------- classes

  /** What a proxy outside groups makes of the ports `ps`: `mid` after the acquisition, `ps'` in the end. */
  ghost predicate RanAlone<Id>(ps: PortState<Id>, mid: PortState<Id>, ps': PortState<Id>, id: Id,
                               q: Request, os: Answers, acquired: Acquired, ok: bool)
  {
    && (q.name in ps.reserved ==> ps.reserved[q.name] in ps.records)
    && AcquireStep(ps, mid, id, q.name, q.port, os.now, os.first, os.probe, acquired)
    && (ok <==> acquired.Port? && os.bind.Some?)
    && if acquired.Port? && !ok then
         && (acquired.port in mid.used ==> mid.used[acquired.port] in mid.records)
         && ps' == ReleaseFrom(mid, acquired.port, os.now)
       else ps' == mid
  }

  /** What running alone does is the step of the server, with the port's socket and holder beside it. */
  lemma RanAloneSteps<Id(!new)>(s: Server<Id>, s': Server<Id>, mid: PortState<Id>, id: Id, proxy: nat,
                                q: Request, os: Answers, acquired: Acquired, ok: bool)
    requires RanAlone(s.ports, mid, s'.ports, id, q, os, acquired, ok)
    requires Ready(s, id, q.name) && proxy !in s.solos
    requires Honest(s, q.name, os, if acquired.Port? then acquired.port else 0)
    requires s'.groups == s.groups
    requires if ok then s'.listening == s.listening + {os.bind.value} && s'.solos == s.solos[proxy := acquired.port]
             else s'.listening == s.listening && s'.solos == s.solos
    ensures SoloRun(s, s', id, proxy, q.name, q.port, os, acquired)
  {
    assert SoloOutcome(s, s', mid, proxy, os, acquired);
  }

  /** The shared socket of a group: not opened yet, open, closed. */
  datatype Socket = NoSocket | Opened | Shut

  class TCPGroup {
    const ctl: TCPGroupCtl
    var group: string
    var groupKey: string
    var addr: string
    var port: int
    var realPort: int
    /** The port of the listening socket. */
    var bound: int
    var lns: seq<Listener>
    var tcpLn: Socket
    /** The channel from which all listeners take their connections. */
    var acceptOpen: bool

    ghost function View(): Group
      reads this
    {
      Group(group, groupKey, addr, port, realPort, bound, lns)
    }

    constructor (ctl: TCPGroupCtl)
      ensures this.ctl == ctl && View() == NEW_GROUP && tcpLn == NoSocket && acceptOpen
    {
      this.ctl, tcpLn, acceptOpen := ctl, NoSocket, true;
      group, groupKey, addr, port, realPort, bound, lns := "", "", "", 0, 0, 0, [];
    }

    /** The first member's request becomes the group's. */
    method Open(ln: nat, q: Request, realPort: int, bound: int)
      modifies this
      ensures View() == Group(q.group, q.groupKey, q.addr, q.port, realPort, bound, old(lns) + [Listener(ln, q)])
      ensures tcpLn == Opened && acceptOpen == old(acceptOpen)
    {
      tcpLn := Opened;
      group, groupKey, addr, port := q.group, q.groupKey, q.addr, q.port;
      this.realPort, this.bound := realPort, bound;
      lns := lns + [Listener(ln, q)];
    }

    method Listen(ln: nat, q: Request, os: Answers) returns (r: Listened, ghost id: Option<PortCtx>)
      requires ctl.portManager.Valid()
      modifies this, ctl.portManager
      ensures ctl.portManager.Valid()
      ensures old(lns) == [] ==>
                id.Some? && fresh(id.value)
                && FirstListen(old(ctl.portManager.View()), ctl.portManager.View(), id.value,
                               old(View()), View(), ln, q, os, r)
      ensures acceptOpen == old(acceptOpen)
      ensures tcpLn == if old(lns) == [] && r.Listening? then Opened else old(tcpLn)
      ensures old(lns) != [] ==>
                ctl.portManager.View() == old(ctl.portManager.View()) && JoinListen(old(View()), View(), ln, q, r)
    {
      id := None;
      if |lns| == 0 {
        var acquired, newId := ctl.portManager.Acquire(q.name, q.port, os.now, os.first, os.probe);
        id := Some(newId);
        ghost var g, ps := View(), ctl.portManager.View();
        if acquired.NoPort? {
          r := Refused(AcquireFailed(acquired.error));
        } else if os.bind.None? {
          r := Refused(BindFailed);
        } else {
          Open(ln, q, acquired.port, os.bind.value);
          r := Listening(Listener(ln, q), acquired.port);
        }
        assert FirstOutcome(g, View(), ln, q, os, acquired, r);
        assert ctl.portManager.View() == ps;
      } else {
        if group != q.group || addr != q.addr { return Refused(ParamsInvalid), id; }
        if port != q.port { return Refused(DifferentPort), id; }
        if groupKey != q.groupKey { return Refused(AuthFailed), id; }
        lns := lns + [Listener(ln, q)];
        r := Listening(Listener(ln, q), realPort);
      }
    }

    /** The last listener to go closes the channel and the socket, gives the port back and takes the
        group out of the map. Closing the channel again, or a socket that was never opened, panics. */
    method CloseListener(ln: Listener, now: int) returns (panics: bool)
      requires ctl.portManager.Valid()
      modifies this`lns, this`acceptOpen, this`tcpLn, ctl`groups, ctl.portManager, ctl.portManager.ctxs
      ensures ctl.portManager.Valid() && ctl.portManager.ctxs == old(ctl.portManager.ctxs)
      ensures lns == RemoveListener(old(lns), ln)
      ensures panics == (lns == [] && (!old(acceptOpen) || old(tcpLn).NoSocket?))
      ensures lns == [] && !panics ==>
                ctl.portManager.View() == ReleaseFrom(old(ctl.portManager.View()), realPort, now)
                && ctl.groups == old(ctl.groups) - {group}
      ensures lns != [] || panics ==>
                ctl.portManager.View() == old(ctl.portManager.View()) && ctl.groups == old(ctl.groups)
      ensures acceptOpen == (lns != [] && old(acceptOpen))
      ensures tcpLn == if lns == [] && !panics then Shut else old(tcpLn)
    {
      panics := false;
      Remove(ln);
      if |lns| == 0 { panics := ShutDown(now); }
    }

    method Remove(ln: Listener)
      modifies this`lns
      ensures lns == RemoveListener(old(lns), ln)
    {
      ghost var before := lns;
      for i := 0 to |lns|
        invariant lns == before && forall k | 0 <= k < i :: lns[k] != ln
      {
        if lns[i] == ln {
          RemoveListenerAt(lns, i);
          lns := lns[..i] + lns[i + 1..];
          break;
        }
      }
      if ln !in before { RemoveAbsentListener(before, ln); }
    }

    method ShutDown(now: int) returns (panics: bool)
      requires ctl.portManager.Valid()
      modifies this`acceptOpen, this`tcpLn, ctl`groups, ctl.portManager, ctl.portManager.ctxs
      ensures ctl.portManager.Valid() && ctl.portManager.ctxs == old(ctl.portManager.ctxs)
      ensures panics == (!old(acceptOpen) || old(tcpLn).NoSocket?) && !acceptOpen
      ensures ctl.portManager.View() == (if panics then old(ctl.portManager.View())
                                         else ReleaseFrom(old(ctl.portManager.View()), realPort, now))
      ensures ctl.groups == if panics then old(ctl.groups) else old(ctl.groups) - {group}
      ensures tcpLn == if panics then old(tcpLn) else Shut
    {
      if !acceptOpen { return true; }
      acceptOpen := false;
      if tcpLn.NoSocket? { return true; }
      tcpLn := Shut;
      ctl.portManager.Release(realPort, now);
      ctl.RemoveGroup(group);
      panics := false;
    }
  }

  class TCPGroupCtl {
    const portManager: Manager
    var groups: map<string, TCPGroup>

    constructor (portManager: Manager)
      ensures this.portManager == portManager && groups == map[]
    {
      this.portManager := portManager;
      groups := map[];
    }

    method RemoveGroup(group: string)
      modifies this`groups
      ensures groups == old(groups) - {group}
    {
      groups := groups - {group};
    }

    /** The group of that name; a name without a group counts as a new one. */
    ghost function GroupView(group: string): Group
      reads this, groups.Values
    {
      if group in groups then groups[group].View() else NEW_GROUP
    }

    /** The present state is what listening with the request `q` makes of the ports `ps` and the group `g`. */
    ghost predicate ListenedAs(ps: PortState<PortCtx>, g: Group, ln: nat, q: Request, os: Answers, r: Listened,
                               id: Option<PortCtx>)
      reads this, groups.Values, portManager, portManager.ctxs
    {
      if g.lns == [] then
        && id.Some? && (q.name in ps.reserved ==> ps.reserved[q.name] in ps.records)
        && FirstListen(ps, portManager.View(), id.value, g, GroupView(q.group), ln, q, os, r)
      else portManager.View() == ps && JoinListen(g, GroupView(q.group), ln, q, r)
    }

    /** The group of that name, created if there is none. */
    method GroupAt(name: string) returns (g: TCPGroup)
      requires forall k | k in groups :: groups[k].ctl == this
      modifies this`groups
      ensures groups == old(groups)[name := g] && g.ctl == this && g.View() == old(GroupView(name))
      ensures if name in old(groups) then g == old(groups[name]) else fresh(g)
    {
      if name !in groups {
        g := new TCPGroup(this);
        groups := groups[name := g];
      } else {
        g := groups[name];
      }
    }

    /** Listens in the group of that name, created if there is none. */
    method Listen(ln: nat, q: Request, os: Answers) returns (r: Listened, ghost id: Option<PortCtx>)
      requires portManager.Valid()
      requires forall k | k in groups :: groups[k].ctl == this
      modifies this, if q.group in groups then {groups[q.group]} else {}, portManager
      ensures portManager.Valid() && q.group in groups && groups[q.group].ctl == this
      ensures groups == old(groups)[q.group := groups[q.group]]
      ensures q.group in old(groups) ==> groups[q.group] == old(groups[q.group])
      ensures q.group !in old(groups) ==> fresh(groups[q.group])
      ensures ListenedAs(old(portManager.View()), old(GroupView(q.group)), ln, q, os, r, id)
    {
      var g := GroupAt(q.group);
      r, id := g.Listen(ln, q, os);
    }
  }

  class TCPProxy {
    const ctl: TCPGroupCtl
    var cfg: Request
    var realPort: int
    var listener: Option<Listener>
    /** The group whose listener it is, for a proxy in a group. */
    var lnGroup: Option<TCPGroup>
    var lnClosed: bool

    constructor (request: Request, ctl: TCPGroupCtl)
      ensures this.cfg == request && this.ctl == ctl && listener == None && lnGroup == None && !lnClosed
    {
      this.cfg, this.ctl, realPort, listener, lnGroup, lnClosed := request, ctl, 0, None, None, false;
    }

    /** Runs the proxy. `mid` is the port manager after a proxy outside groups has asked for its
        port, and before it gives the port back if it cannot listen there. */
    method Run(ln: nat, os: Answers)
      returns (ok: bool, remoteAddr: string, ghost id: Option<PortCtx>, ghost acquired: Acquired,
               ghost mid: PortState<PortCtx>, ghost r: Option<Listened>)
      requires ctl.portManager.Valid() && listener == None && lnGroup == None
      requires forall k | k in ctl.groups :: ctl.groups[k].ctl == ctl
      modifies this, ctl, if cfg.group in ctl.groups then {ctl.groups[cfg.group]} else {}
      modifies ctl.portManager, ctl.portManager.ctxs
      ensures ctl.portManager.Valid() && (ok <==> listener.Some?)
      ensures cfg == if ok then old(cfg).(port := realPort) else old(cfg)
      ensures remoteAddr == if ok then RemoteAddr(realPort) else ""
      ensures old(cfg).group == "" ==>
                && id.Some? && lnGroup == None && (ok ==> acquired == Port(realPort))
                && RanAlone(old(ctl.portManager.View()), mid, ctl.portManager.View(), id.value, old(cfg),
                            os, acquired, ok)
      ensures old(cfg).group != "" ==>
                && r.Some? && (ok <==> r.value.Listening?) && old(cfg).group in ctl.groups
                && (ok ==> listener == Some(r.value.ln) && realPort == r.value.realPort
                           && lnGroup == Some(ctl.groups[old(cfg).group]))
                && ctl.ListenedAs(old(ctl.portManager.View()), old(ctl.GroupView(cfg.group)),
                                  ln, old(cfg), os, r.value, id)
    {
      if cfg.group != "" {
        acquired, mid := NoPort(NoAvailablePort), ctl.portManager.View();
        ghost var listened;
        ok, id, listened := RunInGroup(ln, os);
        r := Some(listened);
      } else {
        ghost var newId;
        newId, acquired, mid, ok := RunAlone(ln, os);
        id, r := Some(newId), None;
      }
      remoteAddr := "";
      if ok { remoteAddr := Announce(); }
    }

    /** The port that was got replaces the port that was asked for. */
    method Announce() returns (remoteAddr: string)
      modifies this`cfg
      ensures cfg == old(cfg).(port := realPort) && remoteAddr == RemoteAddr(realPort)
    {
      cfg := cfg.(port := realPort);
      remoteAddr := RemoteAddr(realPort);
    }

    method RunInGroup(ln: nat, os: Answers) returns (ok: bool, ghost id: Option<PortCtx>, ghost r: Listened)
      requires ctl.portManager.Valid() && listener == None && lnGroup == None
      requires forall k | k in ctl.groups :: ctl.groups[k].ctl == ctl
      modifies this`realPort, this`listener, this`lnGroup
      modifies ctl, if cfg.group in ctl.groups then {ctl.groups[cfg.group]} else {}, ctl.portManager
      ensures ctl.portManager.Valid() && (ok <==> listener.Some?) && (ok <==> r.Listening?)
      ensures cfg.group in ctl.groups
      ensures ok ==> listener == Some(r.ln) && realPort == r.realPort && lnGroup == Some(ctl.groups[cfg.group])
      ensures ctl.ListenedAs(old(ctl.portManager.View()), old(ctl.GroupView(cfg.group)), ln, cfg, os, r, id)
    {
      var listened;
      listened, id := ctl.Listen(ln, cfg, os);
      r, ok := listened, listened.Listening?;
      if ok { Keep(listened.ln, listened.realPort, ctl.groups[cfg.group]); }
    }

    /** Keeps the listener that the group handed out. */
    method Keep(ln: Listener, port: int, group: TCPGroup)
      modifies this`realPort, this`listener, this`lnGroup
      ensures realPort == port && listener == Some(ln) && lnGroup == Some(group)
    {
      realPort, listener, lnGroup := port, Some(ln), Some(group);
    }

    method RunAlone(ln: nat, os: Answers)
      returns (ghost id: PortCtx, ghost acquired: Acquired, ghost mid: PortState<PortCtx>, ok: bool)
      requires ctl.portManager.Valid() && listener == None
      modifies this`realPort, this`listener, ctl.portManager, ctl.portManager.ctxs
      ensures ctl.portManager.Valid() && (ok <==> listener.Some?)
      ensures RanAlone(old(ctl.portManager.View()), mid, ctl.portManager.View(), id, cfg, os, acquired, ok)
      ensures ok ==> acquired == Port(realPort)
    {
      var a;
      a, id := ctl.portManager.Acquire(cfg.name, cfg.port, os.now, os.first, os.probe);
      acquired, mid := a, ctl.portManager.View();
      if a.NoPort? { return id, acquired, mid, false; }
      if os.bind.None? {
        ctl.portManager.Release(a.port, os.now);
        return id, acquired, mid, false;
      }
      realPort := a.port;
      listener := Some(Listener(ln, cfg));
      return id, acquired, mid, true;
    }

    /** A proxy in a group only leaves it; the group gives the port back when it is empty. Closing it
        a second time panics at its listener, before the group is touched. */
    method Close(now: int) returns (panics: bool)
      requires ctl.portManager.Valid()
      requires lnGroup.Some? ==> listener.Some? && lnGroup.value.ctl == ctl
      modifies this`lnClosed, if lnGroup.Some? then {lnGroup.value} else {}
      modifies ctl`groups, ctl.portManager, ctl.portManager.ctxs
      ensures ctl.portManager.Valid()
      ensures lnGroup.None? && cfg.group == "" ==>
                !panics && ctl.portManager.View() == ReleaseFrom(old(ctl.portManager.View()), realPort, now)
      ensures lnGroup.Some? && cfg.group != "" ==>
                var g := lnGroup.value;
                && panics == (old(lnClosed) || (g.lns == [] && (!old(g.acceptOpen) || old(g.tcpLn).NoSocket?)))
                && g.lns == (if old(lnClosed) then old(g.lns) else RemoveListener(old(g.lns), listener.value))
                && ctl.portManager.View()
                   == (if g.lns == [] && !panics then ReleaseFrom(old(ctl.portManager.View()), g.realPort, now)
                       else old(ctl.portManager.View()))
                && ctl.groups == (if g.lns == [] && !panics then old(ctl.groups) - {g.group} else old(ctl.groups))
      ensures lnGroup.None? && cfg.group != "" ==>
                !panics && ctl.portManager.View() == old(ctl.portManager.View()) && ctl.groups == old(ctl.groups)
    {
      panics := false;
      if lnGroup.Some? {
        if lnClosed { return true; }
        lnClosed := true;
        panics := lnGroup.value.CloseListener(listener.value, now);
        if panics { return; }
      }
      if cfg.group == "" {
        ctl.portManager.Release(realPort, now);
      }
    }
  }
}
