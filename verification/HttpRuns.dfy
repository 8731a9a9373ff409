/** HTTP proxies over whole runs: any number of proxies register and close in any order. Every
    route and every group membership belongs to exactly one running proxy. */
module HttpRuns {
  import opened Options
  import opened Routers
  import opened VirtualHosts
  import opened HttpGroups
  import opened HttpProxies

  /** What a registration of one place holds: a route of its own, or membership of a group. */
  datatype Claim = RouteClaim(place: Place) | MemberClaim(key: string, name: string)

  function ClaimOf(cfg: ProxyConf, p: Place): Claim {
    if cfg.group == "" then RouteClaim(p) else MemberClaim(IndexerOf(cfg)(p), cfg.name)
  }

  function ClaimsOf(cfg: ProxyConf, ps: seq<Place>): seq<Claim> {
    if ps == [] then [] else [ClaimOf(cfg, ps[0])] + ClaimsOf(cfg, ps[1..])
  }

  /** The names that the claims give to the group at `key`, in order. */
  function NamesIn(key: string, cs: seq<Claim>): seq<string> {
    if cs == [] then []
    else NamesIn(key, cs[..|cs| - 1]) + NameIn(key, cs[|cs| - 1])
  }

  function NameIn(key: string, c: Claim): seq<string> {
    if c.MemberClaim? && c.key == key then [c.name] else []
  }

  lemma {:induction false} NamesInSplit(key: string, a: seq<Claim>, b: seq<Claim>)
    ensures NamesIn(key, a + b) == NamesIn(key, a) + NamesIn(key, b)
    decreases |b|
  {
    if b == [] {
      assert a + b == a;
    } else {
      var n := |b| - 1;
      assert (a + b)[..|a + b| - 1] == a + b[..n];
      NamesInSplit(key, a, b[..n]);
    }
  }

  lemma {:induction false} NamesInMember(key: string, cs: seq<Claim>, name: string)
    ensures name in NamesIn(key, cs) <==> MemberClaim(key, name) in cs
  {
    if cs != [] {
      var n := |cs| - 1;
      NamesInMember(key, cs[..n], name);
      assert cs == cs[..n] + [cs[n]];
    }
  }

  /** A claim in the middle is given up: the list loses that one name. */
  lemma NamesInWithout(key: string, a: seq<Claim>, c: Claim, b: seq<Claim>)
    requires c !in a
    ensures NamesIn(key, a + b)
         == if c.MemberClaim? && c.key == key then RemoveFirst(NamesIn(key, a + [c] + b), c.name)
            else NamesIn(key, a + [c] + b)
  {
    NamesInSplit(key, a, b);
    NamesInSplit(key, a + [c], b);
    assert (a + [c])[..|a|] == a;
    if c.MemberClaim? && c.key == key {
      NamesInMember(key, a, c.name);
      RemoveFirstBetween(NamesIn(key, a), c.name, NamesIn(key, b));
    }
  }

  lemma RemoveFirstBetween(a: seq<string>, name: string, b: seq<string>)
    requires name !in a
    ensures RemoveFirst(a + [name] + b, name) == a + b
  {
    var all := a + [name] + b;
    assert all[|a|] == name && forall k | 0 <= k < |a| :: all[k] == a[k];
    RemoveFirstAt(all, |a|);
  }

  predicate HeldIn(find: Finder, at: Grouping, c: Claim) {
    match c
    case RouteClaim(p) =>
      find(p.domain, p.location).Some? && find(p.domain, p.location).value.createConn.OneProxy?
    case MemberClaim(key, name) => name in at(key).createFuncs
  }

  predicate Held(w: World, c: Claim) {
    HeldIn(FinderOf(w), GroupingOf(w), c)
  }

  /** The members of the group at `key`, in the order of the round robin. */
  function Members(w: World, key: string): seq<string> {
    GroupingOf(w)(key).pxyNames
  }

  // ---------------------------------------------------------------- one place

  /** A registration takes exactly one claim, which was not held. */
  lemma RegisterClaims(cfg: ProxyConf, idx: Indexer, find: Finder, at: Grouping,
                       find': Finder, at': Grouping, p: Place, ok: bool, mine: Claim)
    requires mine == if cfg.group == "" then RouteClaim(p) else MemberClaim(idx(p), cfg.name)
    requires InOrder(find, at) && RegistersOne(cfg, idx, find, at, find', at', p, ok)
    ensures InOrder(find', at')
    ensures ok ==> !HeldIn(find, at, mine)
    ensures forall c :: HeldIn(find', at', c) <==> HeldIn(find, at, c) || (ok && c == mine)
  {
    if cfg.group == "" {
      forall k ensures GroupOk(find', k, at'(k)) { assert GroupOk(find, k, at(k)); }
      forall d, l ensures RouteOk(find', at', d, l) { assert RouteOk(find, at, d, l); }
    } else {
      var key, cfgr := idx(p), RouteFor(cfg, p);
      var err: Option<GroupError> :|
        ok == err.None?
        && Registers(find, at, find', at', key, cfg.name, cfg.group, cfg.groupKey, cfgr, err);
      RegistersInOrder(find, at, find', at', key, cfg.name, cfg.group, cfg.groupKey, cfgr, err);
      assert GroupOk(find, key, at(key));
      JoinOk(find, key, at(key), cfg.name, cfg.group, cfg.groupKey, cfgr);
    }
  }

  /** A member leaves its group, and nothing else is given up. */
  lemma LeaveClaims(find: Finder, at: Grouping, find': Finder, at': Grouping, key: string, name: string)
    requires InOrder(find, at) && HeldIn(find, at, MemberClaim(key, name))
    requires Leaves(find, at, find', at', key, name)
    ensures InOrder(find', at')
    ensures forall c :: HeldIn(find', at', c) <==> HeldIn(find, at, c) && c != MemberClaim(key, name)
  {
    assert at(key) != EMPTY_GROUP;
    LeavesInOrder(find, at, find', at', key, name);
    assert GroupOk(find, key, at(key));
    assert at'(key).createFuncs == at(key).createFuncs - {name};
  }

  /** Undoing a registration whose claim is held gives up that claim and no other. */
  lemma UndoClaims(cfg: ProxyConf, idx: Indexer, find: Finder, at: Grouping,
                   find': Finder, at': Grouping, p: Place, mine: Claim)
    requires mine == if cfg.group == "" then RouteClaim(p) else MemberClaim(idx(p), cfg.name)
    requires InOrder(find, at) && HeldIn(find, at, mine)
    requires UndoesOne(cfg, idx, find, at, find', at', p)
    ensures InOrder(find', at')
    ensures forall c :: HeldIn(find', at', c) <==> HeldIn(find, at, c) && c != mine
  {
    if cfg.group == "" {
      forall k ensures GroupOk(find', k, at'(k)) { assert GroupOk(find, k, at(k)); }
      forall d, l ensures RouteOk(find', at', d, l) { assert RouteOk(find, at, d, l); }
    } else {
      LeaveClaims(find, at, find', at', idx(p), cfg.name);
    }
  }

  /** Whoever joins comes last. */
  lemma RegisterMembers(cfg: ProxyConf, idx: Indexer, find: Finder, at: Grouping,
                        find': Finder, at': Grouping, p: Place, ok: bool, mine: Claim)
    requires mine == if cfg.group == "" then RouteClaim(p) else MemberClaim(idx(p), cfg.name)
    requires RegistersOne(cfg, idx, find, at, find', at', p, ok)
    ensures forall k :: at'(k).pxyNames == at(k).pxyNames + if ok then NameIn(k, mine) else []
  {
  }

  lemma SomeMember(names: seq<string>)
    ensures names == [] || exists n :: n in names
  {
    if names != [] { assert names[0] in names; }
  }

  /** The list is empty when the last member has left. */
  lemma LastLeaves(g: Group, name: string)
    requires Listed(g) && Leave(g, name).createFuncs == map[]
    ensures RemoveFirst(g.pxyNames, name) == []
  {
    LeaveListed(g, name);
    SomeMember(Leave(g, name).pxyNames);
  }

  /** Whoever leaves was there once, and the others keep their order. */
  lemma UndoMembers(cfg: ProxyConf, idx: Indexer, find: Finder, at: Grouping,
                    find': Finder, at': Grouping, p: Place, mine: Claim)
    requires mine == if cfg.group == "" then RouteClaim(p) else MemberClaim(idx(p), cfg.name)
    requires InOrder(find, at) && HeldIn(find, at, mine)
    requires UndoesOne(cfg, idx, find, at, find', at', p)
    ensures forall k :: at'(k).pxyNames == if mine.MemberClaim? && mine.key == k
                                           then RemoveFirst(at(k).pxyNames, mine.name) else at(k).pxyNames
  {
    if cfg.group != "" {
      var g := at(idx(p));
      assert GroupOk(find, idx(p), g);
      if Leave(g, cfg.name).createFuncs == map[] { LastLeaves(g, cfg.name); }
    }
  }

  lemma RegisterOneClaims(cfg: ProxyConf, w: World, p: Place)
    requires ValidWorld(w)
    ensures var (w', ok) := RegisterOne(cfg, w, p);
            && ValidWorld(w') && (ok ==> !Held(w, ClaimOf(cfg, p)))
            && (forall c :: Held(w', c) <==> Held(w, c) || (ok && c == ClaimOf(cfg, p)))
            && forall k :: Members(w', k) == Members(w, k) + if ok then NameIn(k, ClaimOf(cfg, p)) else []
  {
    var (w', ok) := RegisterOne(cfg, w, p);
    RegisterOneEffect(cfg, w, p);
    RegisterClaims(cfg, IndexerOf(cfg), FinderOf(w), GroupingOf(w), FinderOf(w'), GroupingOf(w'), p, ok,
                   ClaimOf(cfg, p));
    RegisterMembers(cfg, IndexerOf(cfg), FinderOf(w), GroupingOf(w), FinderOf(w'), GroupingOf(w'), p, ok,
                    ClaimOf(cfg, p));
  }

  lemma UndoOneClaims(cfg: ProxyConf, w: World, p: Place)
    requires ValidWorld(w) && Held(w, ClaimOf(cfg, p))
    ensures ValidWorld(UndoOne(cfg, w, p))
    ensures forall c :: Held(UndoOne(cfg, w, p), c) <==> Held(w, c) && c != ClaimOf(cfg, p)
    ensures var c, w' := ClaimOf(cfg, p), UndoOne(cfg, w, p);
            forall k :: Members(w', k) == if c.MemberClaim? && c.key == k then RemoveFirst(Members(w, k), c.name)
                                          else Members(w, k)
  {
    if cfg.group != "" {
      assert GroupingOf(w)(IndexerOf(cfg)(p)) != EMPTY_GROUP;
    }
    UndoOneEffect(cfg, w, p);
    var w' := UndoOne(cfg, w, p);
    UndoClaims(cfg, IndexerOf(cfg), FinderOf(w), GroupingOf(w), FinderOf(w'), GroupingOf(w'), p,
               ClaimOf(cfg, p));
    UndoMembers(cfg, IndexerOf(cfg), FinderOf(w), GroupingOf(w), FinderOf(w'), GroupingOf(w'), p,
                ClaimOf(cfg, p));
  }

  // ---------------------------------------------------------------- one proxy

  predicate NoTwice(cs: seq<Claim>) {
    forall i, j | 0 <= i < j < |cs| :: cs[i] != cs[j]
  }

  /** The world's claims are exactly those of `cs`, each once. */
  ghost predicate Claimed(w: World, cs: seq<Claim>) {
    ValidWorld(w) && NoTwice(cs) && forall c :: Held(w, c) <==> c in cs
  }

  /** Groups list their members in the order of their claims. */
  ghost predicate Listing(w: World, cs: seq<Claim>) {
    forall k :: Members(w, k) == NamesIn(k, cs)
  }

  ghost predicate Balanced(w: World, cs: seq<Claim>) {
    Claimed(w, cs) && Listing(w, cs)
  }

  lemma ClaimedAdd(w: World, w': World, cs: seq<Claim>, c: Claim)
    requires Claimed(w, cs) && ValidWorld(w') && !Held(w, c)
    requires forall x :: Held(w', x) <==> Held(w, x) || x == c
    ensures Claimed(w', cs + [c])
  {
  }

  lemma ListingAdd(w: World, w': World, cs: seq<Claim>, c: Claim)
    requires Listing(w, cs)
    requires forall k :: Members(w', k) == Members(w, k) + NameIn(k, c)
    ensures Listing(w', cs + [c])
  {
    assert (cs + [c])[..|cs|] == cs;
  }

  lemma ListingWithout(w: World, w': World, before: seq<Claim>, c: Claim, later: seq<Claim>)
    requires Listing(w, before + [c] + later) && c !in before
    requires forall k :: Members(w', k) == if c.MemberClaim? && c.key == k then RemoveFirst(Members(w, k), c.name)
                                           else Members(w, k)
    ensures Listing(w', before + later)
  {
    forall k ensures Members(w', k) == NamesIn(k, before + later) {
      NamesInWithout(k, before, c, later);
    }
  }

  lemma ClaimsCons(cfg: ProxyConf, ps: seq<Place>, n: nat)
    requires n < |ps|
    ensures ClaimsOf(cfg, ps[..n + 1]) == [ClaimOf(cfg, ps[0])] + ClaimsOf(cfg, ps[1..][..n])
  {
    assert ps[..n + 1][1..] == ps[1..][..n];
  }

  lemma AddThenRest(a: seq<Claim>, c: Claim, b: seq<Claim>)
    ensures (a + [c]) + b == a + ([c] + b)
  {
  }

  lemma RegisterOneBalanced(cfg: ProxyConf, w: World, cs: seq<Claim>, p: Place)
    requires Balanced(w, cs)
    ensures var (w', ok) := RegisterOne(cfg, w, p);
            Balanced(w', if ok then cs + [ClaimOf(cfg, p)] else cs)
  {
    var (w', ok) := RegisterOne(cfg, w, p);
    RegisterOneClaims(cfg, w, p);
    if ok {
      ClaimedAdd(w, w', cs, ClaimOf(cfg, p));
      ListingAdd(w, w', cs, ClaimOf(cfg, p));
    }
  }

  lemma {:induction false} RegisterSeqBalanced(cfg: ProxyConf, w: World, cs: seq<Claim>, ps: seq<Place>)
    requires Balanced(w, cs)
    ensures var (w', n) := RegisterSeq(StepOf(cfg), w, ps);
            Balanced(w', cs + ClaimsOf(cfg, ps[..n]))
    decreases |ps|
  {
    if ps == [] {
      assert cs + [] == cs;
    } else {
      var (w1, ok) := RegisterOne(cfg, w, ps[0]);
      RegisterOneBalanced(cfg, w, cs, ps[0]);
      if ok {
        var c := ClaimOf(cfg, ps[0]);
        RegisterSeqBalanced(cfg, w1, cs + [c], ps[1..]);
        var n := RegisterSeq(StepOf(cfg), w1, ps[1..]).1;
        ClaimsCons(cfg, ps, n);
        AddThenRest(cs, c, ClaimsOf(cfg, ps[1..][..n]));
      } else {
        assert ps[..0] == [] && cs + [] == cs;
      }
    }
  }

  lemma {:induction false} UndoSeqBalanced(cfg: ProxyConf, w: World, before: seq<Claim>, ps: seq<Place>,
                                           after: seq<Claim>)
    requires Balanced(w, before + ClaimsOf(cfg, ps) + after)
    ensures Balanced(UndoSeq(UndoOf(cfg), w, ps), before + after)
    decreases |ps|
  {
    if ps == [] {
      assert before + [] + after == before + after;
    } else {
      var c, rest := ClaimOf(cfg, ps[0]), ClaimsOf(cfg, ps[1..]);
      MoveBrackets(before, c, rest, after);
      UndoOneBalanced(cfg, w, ps[0], before, rest + after);
      UndoSeqBalanced(cfg, UndoOne(cfg, w, ps[0]), before, ps[1..], after);
    }
  }

  lemma MoveBrackets(before: seq<Claim>, c: Claim, rest: seq<Claim>, after: seq<Claim>)
    ensures before + ([c] + rest) + after == before + [c] + (rest + after)
    ensures before + (rest + after) == before + rest + after
  {
  }

  lemma UndoOneBalanced(cfg: ProxyConf, w: World, p: Place, before: seq<Claim>, later: seq<Claim>)
    requires Balanced(w, before + [ClaimOf(cfg, p)] + later)
    ensures Balanced(UndoOne(cfg, w, p), before + later)
  {
    var c := ClaimOf(cfg, p);
    RemoveClaim(before, c, later);
    assert (before + [c] + later)[|before|] == c;
    UndoOneClaims(cfg, w, p);
    ListingWithout(w, UndoOne(cfg, w, p), before, c, later);
  }

  lemma RemoveClaim(a: seq<Claim>, c: Claim, b: seq<Claim>)
    requires NoTwice(a + [c] + b)
    ensures NoTwice(a + b)
    ensures c !in a && forall x :: x in a + b <==> x in a + [c] + b && x != c
  {
    var all := a + [c] + b;
    assert all[|a|] == c && forall i | 0 <= i < |a| :: all[i] == a[i];
    forall i | 0 <= i < |a + b| ensures (a + b)[i] == all[if i < |a| then i else i + 1] && (a + b)[i] != c {
      assert all[|a|] == c;
      if i < |a| { assert all[i] == (a + b)[i]; } else { assert all[i + 1] == (a + b)[i]; }
    }
    forall x ensures x in a + b <==> x in all && x != c {
      if x in a + b {
        var i :| 0 <= i < |a + b| && (a + b)[i] == x;
      }
      if x in all && x != c { assert x in a || x in b; }
    }
  }

  // ---------------------------------------------------------------- runs

  /** A configuration asks to run, or the proxy at this position in the list of running ones closes. */
  datatype Event = RunEvent(cfg: ProxyConf) | CloseEvent(position: nat)

  datatype System = System(world: World, running: seq<ProxyConf>)

  const START := System(World(map[], map[]), [])

  function Next(s: System, e: Event): System {
    match e
    case RunEvent(cfg) =>
      var (w, ok) := RunEffect(cfg, s.world);
      System(w, if ok then s.running + [cfg] else s.running)
    case CloseEvent(i) =>
      if i >= |s.running| then s
      else System(UndoSeq(UndoOf(s.running[i]), s.world, Targets(s.running[i])),
                  s.running[..i] + s.running[i + 1..])
  }

  function RunAll(es: seq<Event>): System {
    if es == [] then START else Next(RunAll(es[..|es| - 1]), es[|es| - 1])
  }

  type Claims = ProxyConf -> seq<Claim>

  function ProxyClaims(): Claims { cfg => ClaimsOf(cfg, Targets(cfg)) }

  function Gather(f: Claims, running: seq<ProxyConf>): seq<Claim> {
    if running == [] then [] else Gather(f, running[..|running| - 1]) + f(running[|running| - 1])
  }

  /** The claims of all running proxies. */
  function AllClaims(running: seq<ProxyConf>): seq<Claim> {
    Gather(ProxyClaims(), running)
  }

  lemma {:induction false} GatherSplit(f: Claims, a: seq<ProxyConf>, b: seq<ProxyConf>)
    ensures Gather(f, a + b) == Gather(f, a) + Gather(f, b)
    decreases |b|
  {
    if b == [] {
      assert a + b == a;
    } else {
      var n := |b| - 1;
      assert (a + b)[..|a + b| - 1] == a + b[..n];
      GatherSplit(f, a, b[..n]);
    }
  }

  lemma GatherThree(f: Claims, a: seq<ProxyConf>, cfg: ProxyConf, b: seq<ProxyConf>)
    ensures Gather(f, a + [cfg] + b) == Gather(f, a) + f(cfg) + Gather(f, b)
  {
    assert (a + [cfg])[..|a|] == a;
    GatherSplit(f, a + [cfg], b);
  }

  lemma SplitAround(running: seq<ProxyConf>, i: nat) returns (a: seq<ProxyConf>, cfg: ProxyConf, b: seq<ProxyConf>)
    requires i < |running|
    ensures a == running[..i] && cfg == running[i] && b == running[i + 1..] && running == a + [cfg] + b
  {
    a, cfg, b := running[..i], running[i], running[i + 1..];
  }

  lemma GatherAround(f: Claims, running: seq<ProxyConf>, i: nat)
    requires i < |running|
    ensures Gather(f, running) == Gather(f, running[..i]) + f(running[i]) + Gather(f, running[i + 1..])
    ensures Gather(f, running[..i] + running[i + 1..]) == Gather(f, running[..i]) + Gather(f, running[i + 1..])
  {
    var a, cfg, b := SplitAround(running, i);
    GatherThree(f, a, cfg, b);
    GatherSplit(f, a, b);
  }

  lemma RunKeepsBalanced(cfg: ProxyConf, w: World, cs: seq<Claim>)
    requires Balanced(w, cs)
    ensures var (w', ok) := RunEffect(cfg, w);
            Balanced(w', if ok then cs + ClaimsOf(cfg, Targets(cfg)) else cs)
  {
    var targets := Targets(cfg);
    var (w', n) := RegisterSeq(StepOf(cfg), w, targets);
    RegisterSeqBalanced(cfg, w, cs, targets);
    if n == |targets| {
      assert targets[..n] == targets;
    } else {
      assert cs + ClaimsOf(cfg, targets[..n]) + [] == cs + ClaimsOf(cfg, targets[..n]);
      UndoSeqBalanced(cfg, w', cs, targets[..n], []);
      assert cs + [] == cs;
    }
  }

  lemma BalancedAfterRun(running: seq<ProxyConf>, cfg: ProxyConf, w: World, ok: bool)
    requires Balanced(w, if ok then AllClaims(running) + ClaimsOf(cfg, Targets(cfg)) else AllClaims(running))
    ensures Balanced(w, AllClaims(if ok then running + [cfg] else running))
  {
    assert (running + [cfg])[..|running|] == running;
  }

  lemma CloseKeepsBalanced(running: seq<ProxyConf>, w: World, i: nat)
    requires Balanced(w, AllClaims(running)) && i < |running|
    ensures Balanced(UndoSeq(UndoOf(running[i]), w, Targets(running[i])), AllClaims(running[..i] + running[i + 1..]))
  {
    GatherAround(ProxyClaims(), running, i);
    UndoSeqBalanced(running[i], w, AllClaims(running[..i]), Targets(running[i]), AllClaims(running[i + 1..]));
  }

  lemma RunNextBalanced(s: System, cfg: ProxyConf)
    requires Balanced(s.world, AllClaims(s.running))
    ensures var t := Next(s, RunEvent(cfg)); Balanced(t.world, AllClaims(t.running))
  {
    var (w, ok) := RunEffect(cfg, s.world);
    RunKeepsBalanced(cfg, s.world, AllClaims(s.running));
    BalancedAfterRun(s.running, cfg, w, ok);
    assert Next(s, RunEvent(cfg)) == System(w, if ok then s.running + [cfg] else s.running);
  }

  lemma CloseNextBalanced(s: System, i: nat)
    requires Balanced(s.world, AllClaims(s.running)) && i < |s.running|
    ensures var t := Next(s, CloseEvent(i)); Balanced(t.world, AllClaims(t.running))
  {
    CloseKeepsBalanced(s.running, s.world, i);
  }

  lemma NextBalanced(s: System, e: Event)
    requires Balanced(s.world, AllClaims(s.running))
    ensures Balanced(Next(s, e).world, AllClaims(Next(s, e).running))
  {
    match e
    case RunEvent(cfg) => RunNextBalanced(s, cfg);
    case CloseEvent(i) => if i < |s.running| { CloseNextBalanced(s, i); }
  }

  /** In every reachable state the groups are in order, and a route or membership is held
      exactly when one running proxy has registered it; no two have registered the same. Groups list
      their members in the order of the registrations. */
  lemma {:induction false} RunBalanced(es: seq<Event>)
    ensures Balanced(RunAll(es).world, AllClaims(RunAll(es).running))
  {
    if es == [] {
      forall d, l ensures RouteOk(FinderOf(START.world), GroupingOf(START.world), d, l) {}
    } else {
      RunBalanced(es[..|es| - 1]);
      NextBalanced(RunAll(es[..|es| - 1]), es[|es| - 1]);
    }
  }

  // ---------------------------------------------------------------- the order of members

  /** The names of the running proxies that claim membership of the group at `key`, in order. */
  function Claimants(key: string, running: seq<ProxyConf>): seq<string> {
    if running == [] then []
    else
      var cfg := running[|running| - 1];
      Claimants(key, running[..|running| - 1])
      + if MemberClaim(key, cfg.name) in ClaimsOf(cfg, Targets(cfg)) then [cfg.name] else []
  }

  lemma {:induction false} ClaimsAreOwn(cfg: ProxyConf, ps: seq<Place>)
    ensures forall c | c in ClaimsOf(cfg, ps) && c.MemberClaim? :: c.name == cfg.name
  {
    if ps != [] { ClaimsAreOwn(cfg, ps[1..]); }
  }

  /** Claims for one name, none twice, name it once at most. */
  lemma {:induction false} NamesInOwn(key: string, name: string, cs: seq<Claim>)
    requires NoTwice(cs) && forall c | c in cs && c.MemberClaim? :: c.name == name
    ensures NamesIn(key, cs) == if MemberClaim(key, name) in cs then [name] else []
  {
    if cs != [] {
      var n := |cs| - 1;
      assert cs == cs[..n] + [cs[n]];
      NamesInOwn(key, name, cs[..n]);
    }
  }

  lemma NamesInNext(key: string, name: string, earlier: seq<Claim>, own: seq<Claim>)
    requires NoTwice(earlier + own) && forall c | c in own && c.MemberClaim? :: c.name == name
    ensures NoTwice(earlier)
    ensures NamesIn(key, earlier + own)
         == NamesIn(key, earlier) + if MemberClaim(key, name) in own then [name] else []
  {
    assert forall i | 0 <= i < |earlier| :: earlier[i] == (earlier + own)[i];
    assert forall i | 0 <= i < |own| :: own[i] == (earlier + own)[|earlier| + i];
    NamesInSplit(key, earlier, own);
    NamesInOwn(key, name, own);
  }

  lemma {:induction false} ClaimantsNamed(key: string, running: seq<ProxyConf>)
    requires NoTwice(AllClaims(running))
    ensures NamesIn(key, AllClaims(running)) == Claimants(key, running)
  {
    if running != [] {
      var n := |running| - 1;
      var cfg := running[n];
      var own := ClaimsOf(cfg, Targets(cfg));
      assert ProxyClaims()(cfg) == own;
      ClaimsAreOwn(cfg, Targets(cfg));
      NamesInNext(key, cfg.name, AllClaims(running[..n]), own);
      ClaimantsNamed(key, running[..n]);
    }
  }

  /** In every reachable state a group lists the running proxies that claim it, in the order in which
      they ran; the round robin goes over them in this order. */
  lemma MembersInRunOrder(es: seq<Event>, key: string)
    ensures At(RunAll(es).world, key).pxyNames == Claimants(key, RunAll(es).running)
  {
    RunBalanced(es);
    ClaimantsNamed(key, RunAll(es).running);
    assert Members(RunAll(es).world, key) == At(RunAll(es).world, key).pxyNames;
  }

  // ---------------------------------------------------------------- the terms of a group

  /** The proxy claims membership of the group at `key`. */
  predicate Joins(cfg: ProxyConf, key: string) {
    MemberClaim(key, cfg.name) in ClaimsOf(cfg, Targets(cfg))
  }

  predicate OnTerms(g: Group, cfg: ProxyConf) {
    g.group == cfg.group && g.groupKey == cfg.groupKey
  }

  /** Every running proxy agrees with the groups that it has joined. */
  ghost predicate TermsOk(w: World, running: seq<ProxyConf>) {
    forall i, key | 0 <= i < |running| && Joins(running[i], key) :: OnTerms(At(w, key), running[i])
  }

  lemma {:induction false} JoinsAt(cfg: ProxyConf, ps: seq<Place>, key: string) returns (p: Place)
    requires MemberClaim(key, cfg.name) in ClaimsOf(cfg, ps)
    ensures cfg.group != "" && p in ps && IndexerOf(cfg)(p) == key
  {
    if ClaimOf(cfg, ps[0]) == MemberClaim(key, cfg.name) {
      p := ps[0];
    } else {
      p := JoinsAt(cfg, ps[1..], key);
    }
  }

  /** Leaving empties the group or leaves its terms alone. */
  predicate KeepsTerms(before: Group, after: Group) {
    after.createFuncs == map[]
    || (before.createFuncs != map[] && after.group == before.group && after.groupKey == before.groupKey)
  }

  lemma {:induction false} UndoSeqTerms(cfg: ProxyConf, w: World, ps: seq<Place>, key: string)
    ensures KeepsTerms(At(w, key), At(UndoSeq(UndoOf(cfg), w, ps), key))
    decreases |ps|
  {
    if ps != [] {
      assert KeepsTerms(At(w, key), At(UndoOne(cfg, w, ps[0]), key));
      UndoSeqTerms(cfg, UndoOne(cfg, w, ps[0]), ps[1..], key);
    }
  }

  /** A claim of a running proxy is held. */
  lemma JoinedHeld(w: World, running: seq<ProxyConf>, i: nat, key: string)
    requires Balanced(w, AllClaims(running)) && i < |running| && Joins(running[i], key)
    ensures At(w, key).createFuncs != map[] && At(w, key).pxyNames != []
  {
    GatherAround(ProxyClaims(), running, i);
    var c := MemberClaim(key, running[i].name);
    assert c in ProxyClaims()(running[i]) && c in AllClaims(running);
    assert Held(w, c) && running[i].name in GroupingOf(w)(key).createFuncs;
    assert GroupOk(FinderOf(w), key, GroupingOf(w)(key));
    EmptyTogether(FinderOf(w), key, At(w, key));
  }

  lemma RanTerms(cfg: ProxyConf, w: World, w': World, key: string)
    requires ValidWorld(w) && PendingWorld(cfg, w, w', SetOf(Targets(cfg)))
    ensures Joins(cfg, key) ==> OnTerms(At(w', key), cfg)
    ensures At(w, key).pxyNames != [] ==> At(w', key).groupKey == At(w, key).groupKey
    ensures At(w, key).pxyNames != [] ==> At(w', key).group == At(w, key).group
  {
    if Joins(cfg, key) {
      var p := JoinsAt(cfg, Targets(cfg), key);
      PendingMeans(cfg, w, w', SetOf(Targets(cfg)), p);
    } else if cfg.group != "" && Touched(IndexerOf(cfg), SetOf(Targets(cfg)), key) {
      var p :| p in SetOf(Targets(cfg)) && IndexerOf(cfg)(p) == key;
      PendingMeans(cfg, w, w', SetOf(Targets(cfg)), p);
    } else {
      assert GroupingOf(w')(key) == GroupingOf(w)(key);
    }
  }

  lemma RunKeepsTerms(cfg: ProxyConf, w: World, running: seq<ProxyConf>)
    requires Balanced(w, AllClaims(running)) && TermsOk(w, running)
    ensures var (w', ok) := RunEffect(cfg, w); TermsOk(w', if ok then running + [cfg] else running)
  {
    var (w', ok) := RunEffect(cfg, w);
    AllOrNothing(cfg, w);
    if ok {
      var more := running + [cfg];
      forall i, key | 0 <= i < |more| && Joins(more[i], key) ensures OnTerms(At(w', key), more[i]) {
        RanTerms(cfg, w, w', key);
        if i < |running| { JoinedHeld(w, running, i, key); }
      }
    }
  }

  lemma CloseKeepsTerms(running: seq<ProxyConf>, w: World, i: nat)
    requires Balanced(w, AllClaims(running)) && TermsOk(w, running) && i < |running|
    ensures TermsOk(UndoSeq(UndoOf(running[i]), w, Targets(running[i])), running[..i] + running[i + 1..])
  {
    var w', left := UndoSeq(UndoOf(running[i]), w, Targets(running[i])), running[..i] + running[i + 1..];
    CloseKeepsBalanced(running, w, i);
    forall j, key | 0 <= j < |left| && Joins(left[j], key) ensures OnTerms(At(w', key), left[j]) {
      assert left[j] == running[if j < i then j else j + 1];
      UndoSeqTerms(running[i], w, Targets(running[i]), key);
      JoinedHeld(w', left, j, key);
    }
  }

  lemma {:induction false} RunTerms(es: seq<Event>)
    ensures TermsOk(RunAll(es).world, RunAll(es).running)
  {
    if es != [] {
      var s := RunAll(es[..|es| - 1]);
      RunBalanced(es[..|es| - 1]);
      RunTerms(es[..|es| - 1]);
      match es[|es| - 1]
      case RunEvent(cfg) => RunKeepsTerms(cfg, s.world, s.running);
      case CloseEvent(i) => if i < |s.running| { CloseKeepsTerms(s.running, s.world, i); }
    }
  }

  /** In every reachable state, running proxies that are in one group gave the same name and key for it. */
  lemma MembersShareKey(es: seq<Event>, i: nat, j: nat, key: string)
    requires var running := RunAll(es).running;
             i < |running| && j < |running| && Joins(running[i], key) && Joins(running[j], key)
    ensures var running := RunAll(es).running;
            running[i].groupKey == running[j].groupKey && running[i].group == running[j].group
  {
    RunTerms(es);
    assert OnTerms(At(RunAll(es).world, key), RunAll(es).running[i]);
    assert OnTerms(At(RunAll(es).world, key), RunAll(es).running[j]);
  }

  // ---------------------------------------------------------------- when all have closed

  lemma NobodyIn(find: Finder, at: Grouping, key: string)
    requires InOrder(find, at) && forall c :: !HeldIn(find, at, c)
    ensures at(key) == EMPTY_GROUP
  {
    assert GroupOk(find, key, at(key));
    forall n ensures n !in at(key).createFuncs { assert !HeldIn(find, at, MemberClaim(key, n)); }
    assert at(key).createFuncs == map[];
  }

  lemma NothingHeld(find: Finder, at: Grouping, d: string, l: string, key: string)
    requires InOrder(find, at) && forall c :: !HeldIn(find, at, c)
    ensures at(key) == EMPTY_GROUP && find(d, l).None?
  {
    NobodyIn(find, at, key);
    assert RouteOk(find, at, d, l) && !HeldIn(find, at, RouteClaim(Place(d, l)));
    forall k { NobodyIn(find, at, k); }
  }

  /** A reachable state in which every proxy has closed routes nothing and groups nobody. */
  lemma AllClosedEmpty(es: seq<Event>, d: string, l: string, key: string)
    requires RunAll(es).running == []
    ensures Lookup(RunAll(es).world.routes, d, l).None?
    ensures At(RunAll(es).world, key) == EMPTY_GROUP
  {
    RunBalanced(es);
    var w := RunAll(es).world;
    forall c ensures !HeldIn(FinderOf(w), GroupingOf(w), c) { assert !Held(w, c); }
    NothingHeld(FinderOf(w), GroupingOf(w), d, l, key);
    assert GroupingOf(w)(key) == At(w, key) && FinderOf(w)(d, l) == Lookup(w.routes, d, l);
  }
}
