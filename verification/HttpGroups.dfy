/** HTTP load-balancing groups: members that share one route, and the controller that keeps the
    groups. The group's own route is in the router exactly while the group has members. */
module HttpGroups {
  import Names
  import opened Options
  import opened Routers
  import opened VirtualHosts

  // ---------------------------------------------------------------- state as values

  datatype Group = Group(
    group: string, groupKey: string, domain: string, location: string,
    createFuncs: map<string, ConnSource>, pxyNames: seq<string>)

  const EMPTY_GROUP := Group("", "", "", "", map[], [])

  /** The routing table and the groups by their index. */
  datatype World = World(routes: Table<RouteConfig>, groups: map<string, Group>)

  datatype GroupError = RouterConflict | ParamsInvalid | AuthFailed | ProxyRepeated

  function GroupIndex(group: string, domain: string, location: string): string {
    group + "_" + domain + "_" + location
  }

  /** Places of one group with dots and no underscores in their domains have different indices. */
  lemma IndexTellsPlace(group: string, domain: string, location: string, domain': string, location': string)
    requires GroupIndex(group, domain, location) == GroupIndex(group, domain', location')
    requires '_' !in domain && '_' !in domain'
    ensures domain == domain' && location == location'
  {
    var s, t := domain + ['_'] + location, domain' + ['_'] + location';
    assert GroupIndex(group, domain, location)[|group| + 1..] == s;
    assert GroupIndex(group, domain', location')[|group| + 1..] == t;
    Names.FirstLabel(domain, location, '_');
    Names.FirstLabel(domain', location', '_');
    assert s[|domain| + 1..] == location && t[|domain'| + 1..] == location';
  }

  /** With underscores in domains two places can share an index. */
  lemma IndexCollides()
    ensures GroupIndex("g", "a_b", "c") == GroupIndex("g", "a", "b_c")
  {
  }

  function RouteOf(cfg: RouteConfig): Router<RouteConfig> {
    Router(cfg.domain, cfg.location, cfg)
  }

  function RemoveFirst(names: seq<string>, name: string): seq<string> {
    if names == [] then []
    else if names[0] == name then names[1..]
    else [names[0]] + RemoveFirst(names[1..], name)
  }

  /** What became of the group, and whether it now needs its own route. */
  datatype Joined = Joined(group: Group, addsRoute: bool, err: Option<GroupError>)

  /** A proxy joins the group `g`; `taken` says that the router has the route already. */
  function Join(g: Group, taken: bool, name: string, group: string, groupKey: string, cfg: RouteConfig): Joined {
    var joined := g.(createFuncs := g.createFuncs[name := cfg.createConn], pxyNames := g.pxyNames + [name]);
    if g.createFuncs == map[] then
      if taken then Joined(g, false, Some(RouterConflict))
      else Joined(joined.(group := group, groupKey := groupKey, domain := cfg.domain, location := cfg.location),
                  true, None)
    else if g.group != group || g.domain != cfg.domain || g.location != cfg.location then
      Joined(g, false, Some(ParamsInvalid))
    else if g.groupKey != groupKey then Joined(g, false, Some(AuthFailed))
    else if name in g.createFuncs then Joined(g, false, Some(ProxyRepeated))
    else Joined(joined, false, None)
  }

  function GroupRoute(key: string, cfg: RouteConfig): RouteConfig {
    cfg.(createConn := WholeGroup(key))
  }

  /** The group at an index; an index without a group counts as an empty one. */
  function At(w: World, key: string): Group {
    if key in w.groups then w.groups[key] else EMPTY_GROUP
  }

  function RegisterAt(w: World, key: string, name: string, group: string, groupKey: string, cfg: RouteConfig)
    : (World, Option<GroupError>)
  {
    var j := Join(At(w, key), Lookup(w.routes, cfg.domain, cfg.location).Some?, name, group, groupKey, cfg);
    (World(if j.addsRoute then AddRoute(w.routes, RouteOf(GroupRoute(key, cfg))) else w.routes,
           w.groups[key := j.group]), j.err)
  }

  /** `HTTPGroupController.Register`. */
  function RegisterIn(w: World, name: string, group: string, groupKey: string, cfg: RouteConfig)
    : (World, Option<GroupError>)
  {
    RegisterAt(w, GroupIndex(group, cfg.domain, cfg.location), name, group, groupKey, cfg)
  }

  function Leave(g: Group, name: string): Group {
    g.(createFuncs := g.createFuncs - {name}, pxyNames := RemoveFirst(g.pxyNames, name))
  }

  function UnRegisterAt(w: World, key: string, name: string): World {
    if key !in w.groups then w
    else
      var g := w.groups[key];
      if Leave(g, name).createFuncs == map[] then
        World(DelRoute(w.routes, g.domain, g.location), w.groups - {key})
      else w.(groups := w.groups[key := Leave(g, name)])
  }

  /** `HTTPGroupController.UnRegister`. */
  function UnRegisterIn(w: World, name: string, group: string, domain: string, location: string): World {
    UnRegisterAt(w, GroupIndex(group, domain, location), name)
  }

  // ---------------------------------------------------------------- invariant

  predicate NoRepeats(names: seq<string>) {
    forall i, j | 0 <= i < j < |names| :: names[i] != names[j]
  }

  ghost predicate Listed(g: Group) {
    NoRepeats(g.pxyNames) && forall n :: n in g.pxyNames <==> n in g.createFuncs
  }

  /** The routes and the groups, seen through their lookups alone. */
  type Finder = (string, string) -> Option<RouteConfig>
  type Grouping = string -> Group

  function FinderOf(w: World): Finder { (d, l) => Lookup(w.routes, d, l) }
  function GroupingOf(w: World): Grouping { k => At(w, k) }

  /** The route at this domain and location leads to the group at index `key`. */
  predicate OwnRoute(find: Finder, key: string, domain: string, location: string) {
    find(domain, location).Some? && find(domain, location).value.createConn == WholeGroup(key)
  }

  /** An empty group is in its initial state; any other lists its members and has its own route. */
  ghost predicate GroupOk(find: Finder, key: string, g: Group) {
    g == EMPTY_GROUP
    || (g.createFuncs != map[] && Listed(g) && OwnRoute(find, key, g.domain, g.location))
  }

  /** A route that leads to a group is the own route of a group that has members. */
  predicate RouteOk(find: Finder, at: Grouping, domain: string, location: string) {
    var r := find(domain, location);
    r.Some? && r.value.createConn.WholeGroup? ==>
      var g := at(r.value.createConn.groupIndex);
      g.createFuncs != map[] && g.domain == domain && g.location == location
  }

  ghost predicate InOrder(find: Finder, at: Grouping) {
    && (forall k :: GroupOk(find, k, at(k)))
    && (forall d, l :: RouteOk(find, at, d, l))
  }

  ghost predicate ValidWorld(w: World) {
    ValidTable(w.routes) && InOrder(FinderOf(w), GroupingOf(w))
  }

  /** `find'` differs from `find` in this one place only, where it answers `r`. */
  ghost predicate SetRoute(find: Finder, find': Finder, domain: string, location: string, r: Option<RouteConfig>) {
    forall d, l :: find'(d, l) == (if d == domain && l == location then r else find(d, l))
  }

  ghost predicate SameRoutes(find: Finder, find': Finder) {
    forall d, l :: find'(d, l) == find(d, l)
  }

  ghost predicate SetGroup(at: Grouping, at': Grouping, key: string, g: Group) {
    forall k :: at'(k) == if k == key then g else at(k)
  }

  lemma {:induction false} RemoveFirstEffect(names: seq<string>, name: string)
    requires NoRepeats(names)
    ensures NoRepeats(RemoveFirst(names, name))
    ensures forall n :: n in RemoveFirst(names, name) <==> n in names && n != name
  {
    if names != [] {
      RemoveFirstEffect(names[1..], name);
      assert forall n :: n in names <==> n == names[0] || n in names[1..];
      var rest := RemoveFirst(names[1..], name);
      forall j | 0 <= j < |rest| ensures rest[j] != names[0] {
        assert rest[j] in rest;
        assert rest[j] in names[1..];
      }
    }
  }

  lemma {:induction false} RemoveAppended(names: seq<string>, name: string)
    requires name !in names
    ensures RemoveFirst(names + [name], name) == names
  {
    if names != [] {
      assert (names + [name])[1..] == names[1..] + [name];
      RemoveAppended(names[1..], name);
    }
  }

  lemma {:induction false} RemoveFirstAt(names: seq<string>, i: nat)
    requires i < |names| && forall k | 0 <= k < i :: names[k] != names[i]
    ensures RemoveFirst(names, names[i]) == names[..i] + names[i + 1..]
  {
    if i > 0 {
      RemoveFirstAt(names[1..], i - 1);
    }
  }

  lemma {:induction false} RemoveAbsent(names: seq<string>, name: string)
    requires name !in names
    ensures RemoveFirst(names, name) == names
  {
    if names != [] {
      RemoveAbsent(names[1..], name);
    }
  }

  /** Joining leaves the list in order. */
  lemma JoinListed(g: Group, taken: bool, name: string, group: string, groupKey: string, cfg: RouteConfig)
    requires Listed(g)
    ensures Listed(Join(g, taken, name, group, groupKey, cfg).group)
  {
    assert name in g.pxyNames <==> name in g.createFuncs;
  }

  lemma LeaveListed(g: Group, name: string)
    requires Listed(g)
    ensures Listed(Leave(g, name))
  {
    RemoveFirstEffect(g.pxyNames, name);
  }

  /** What a registration does, seen through the lookups. */
  ghost predicate Registers(find: Finder, at: Grouping, find': Finder, at': Grouping, key: string,
                            name: string, group: string, groupKey: string, cfg: RouteConfig,
                            err: Option<GroupError>)
  {
    var j := Join(at(key), find(cfg.domain, cfg.location).Some?, name, group, groupKey, cfg);
    && err == j.err && SetGroup(at, at', key, j.group)
    && if j.addsRoute then SetRoute(find, find', cfg.domain, cfg.location, Some(GroupRoute(key, cfg)))
       else SameRoutes(find, find')
  }

  /** What leaving does, seen through the lookups. */
  ghost predicate Leaves(find: Finder, at: Grouping, find': Finder, at': Grouping, key: string, name: string) {
    var g := at(key);
    if Leave(g, name).createFuncs == map[] then
      SetGroup(at, at', key, EMPTY_GROUP) && SetRoute(find, find', g.domain, g.location, None)
    else SetGroup(at, at', key, Leave(g, name)) && SameRoutes(find, find')
  }

  lemma RegisterEffect(w: World, key: string, name: string, group: string, groupKey: string, cfg: RouteConfig)
    requires ValidTable(w.routes)
    ensures var (w', err) := RegisterAt(w, key, name, group, groupKey, cfg);
            && ValidTable(w'.routes)
            && Registers(FinderOf(w), GroupingOf(w), FinderOf(w'), GroupingOf(w'),
                         key, name, group, groupKey, cfg, err)
  {
    AddRouteEffect(w.routes, RouteOf(GroupRoute(key, cfg)));
  }

  lemma UnRegisterEffect(w: World, key: string, name: string)
    requires ValidTable(w.routes) && key in w.groups
    ensures var w' := UnRegisterAt(w, key, name);
            && ValidTable(w'.routes)
            && Leaves(FinderOf(w), GroupingOf(w), FinderOf(w'), GroupingOf(w'), key, name)
  {
    DelRouteEffect(w.routes, w.groups[key].domain, w.groups[key].location);
  }

  lemma JoinOk(find: Finder, key: string, g: Group,
               name: string, group: string, groupKey: string, cfg: RouteConfig)
    requires GroupOk(find, key, g)
    ensures var taken := find(cfg.domain, cfg.location).Some?;
            var j := Join(g, taken, name, group, groupKey, cfg);
            && (j.err.Some? ==> j.group == g && !j.addsRoute)
            && (j.err.None? ==>
                  && j.group.createFuncs != map[] && Listed(j.group)
                  && j.group.domain == cfg.domain && j.group.location == cfg.location
                  && (if j.addsRoute then !taken else OwnRoute(find, key, cfg.domain, cfg.location)))
  {
    var taken := find(cfg.domain, cfg.location).Some?;
    JoinListed(g, taken, name, group, groupKey, cfg);
    assert name in g.createFuncs[name := cfg.createConn];
  }

  lemma RegistersInOrder(find: Finder, at: Grouping, find': Finder, at': Grouping, key: string,
                         name: string, group: string, groupKey: string, cfg: RouteConfig,
                         err: Option<GroupError>)
    requires InOrder(find, at)
    requires Registers(find, at, find', at', key, name, group, groupKey, cfg, err)
    ensures InOrder(find', at')
  {
    assert GroupOk(find, key, at(key));
    JoinOk(find, key, at(key), name, group, groupKey, cfg);
    forall k ensures GroupOk(find', k, at'(k)) {
      assert GroupOk(find, k, at(k));
    }
    forall d, l ensures RouteOk(find', at', d, l) {
      assert RouteOk(find, at, d, l);
    }
  }

  lemma LeavesInOrder(find: Finder, at: Grouping, find': Finder, at': Grouping, key: string, name: string)
    requires InOrder(find, at) && at(key) != EMPTY_GROUP
    requires Leaves(find, at, find', at', key, name)
    ensures InOrder(find', at')
  {
    assert GroupOk(find, key, at(key));
    LeaveListed(at(key), name);
    forall k ensures GroupOk(find', k, at'(k)) {
      assert GroupOk(find, k, at(k));
    }
    forall d, l ensures RouteOk(find', at', d, l) {
      assert RouteOk(find, at, d, l);
    }
  }

  /** A registration keeps the invariant, whether it succeeds or not. */
  lemma RegisterKeepsValid(w: World, key: string, name: string, group: string, groupKey: string, cfg: RouteConfig)
    requires ValidWorld(w)
    ensures ValidWorld(RegisterAt(w, key, name, group, groupKey, cfg).0)
  {
    var (w', err) := RegisterAt(w, key, name, group, groupKey, cfg);
    RegisterEffect(w, key, name, group, groupKey, cfg);
    RegistersInOrder(FinderOf(w), GroupingOf(w), FinderOf(w'), GroupingOf(w'),
                     key, name, group, groupKey, cfg, err);
  }

  /** A route that leads to some group. */
  predicate LeadsToGroup(find: Finder, domain: string, location: string) {
    find(domain, location).Some? && find(domain, location).value.createConn.WholeGroup?
  }

  /** Leaving a group that nobody ever joined takes the route of the empty domain and location away. */
  lemma EmptyLeavesInOrder(find: Finder, at: Grouping, find': Finder, at': Grouping, key: string, name: string)
    requires InOrder(find, at) && at(key) == EMPTY_GROUP && Leaves(find, at, find', at', key, name)
    ensures InOrder(find', at') <==> !LeadsToGroup(find, "", "")
  {
    assert RouteOk(find, at, "", "");
    assert forall k :: at'(k) == at(k);
    if LeadsToGroup(find, "", "") {
      var k := find("", "").value.createConn.groupIndex;
      assert !GroupOk(find', k, at'(k));
    } else {
      forall k ensures GroupOk(find', k, at'(k)) { assert GroupOk(find, k, at(k)); }
      forall d, l ensures RouteOk(find', at', d, l) { assert RouteOk(find, at, d, l); }
    }
  }

  /** So does leaving a group, a member or not, unless a refused first registration left the index with
      a group that nobody joined and the route of the empty domain and location is a group's. */
  lemma UnRegisterKeepsValid(w: World, key: string, name: string)
    requires ValidWorld(w)
    ensures ValidWorld(UnRegisterAt(w, key, name))
            <==> !(key in w.groups && w.groups[key] == EMPTY_GROUP && LeadsToGroup(FinderOf(w), "", ""))
  {
    if key !in w.groups { return; }
    var w' := UnRegisterAt(w, key, name);
    UnRegisterEffect(w, key, name);
    if w.groups[key] == EMPTY_GROUP {
      EmptyLeavesInOrder(FinderOf(w), GroupingOf(w), FinderOf(w'), GroupingOf(w'), key, name);
    } else {
      LeavesInOrder(FinderOf(w), GroupingOf(w), FinderOf(w'), GroupingOf(w'), key, name);
    }
  }

  /** The answer to a registration, and what it does: the first member needs the route to be free and
      sets the group's terms and route; a later one must agree with all of them, the key included, and
      not be a member yet. */
  lemma JoinedExactly(w: World, key: string, name: string, group: string, groupKey: string, cfg: RouteConfig)
    requires ValidWorld(w)
    ensures var (w', err) := RegisterAt(w, key, name, group, groupKey, cfg);
            var g, g', first := At(w, key), At(w', key), At(w, key).pxyNames == [];
            var agrees := g.group == group && g.domain == cfg.domain && g.location == cfg.location;
            && (err == Some(RouterConflict) <==> first && Lookup(w.routes, cfg.domain, cfg.location).Some?)
            && (err == Some(ParamsInvalid) <==> !first && !agrees)
            && (err == Some(AuthFailed) <==> !first && agrees && g.groupKey != groupKey)
            && (err == Some(ProxyRepeated) <==> !first && agrees && g.groupKey == groupKey && name in g.pxyNames)
            && (err.Some? ==> g' == g && w'.routes == w.routes)
            && (err.None? ==>
                  && g'.pxyNames == g.pxyNames + [name] && g'.createFuncs == g.createFuncs[name := cfg.createConn]
                  && g'.group == group && g'.groupKey == groupKey
                  && g'.domain == cfg.domain && g'.location == cfg.location)
            && (err.None? && !first ==> w'.routes == w.routes)
            && (err.None? && first ==>
                  Lookup(w'.routes, cfg.domain, cfg.location)
                  == Some(RouteConfig(cfg.domain, cfg.location, cfg.rewriteHost, cfg.username, cfg.password,
                                      cfg.headers, WholeGroup(key))))
  {
    var g := At(w, key);
    assert GroupOk(FinderOf(w), key, GroupingOf(w)(key));
    EmptyTogether(FinderOf(w), key, g);
    AddRouteEffect(w.routes, RouteOf(GroupRoute(key, cfg)));
  }

  /** A group has names exactly when it has sources, and the same ones. */
  lemma EmptyTogether(find: Finder, key: string, g: Group)
    requires GroupOk(find, key, g)
    ensures g.pxyNames == [] <==> g.createFuncs == map[]
    ensures forall n :: n in g.pxyNames <==> n in g.createFuncs
  {
    if g != EMPTY_GROUP {
      var n :| n in g.createFuncs;
      assert n in g.pxyNames;
    }
  }

  /** In every valid state: a group has members exactly when a route leads to it, and its list
      of members has no repeats and agrees with its map of connection sources. */
  lemma MembersIffRoute(w: World, key: string)
    requires ValidWorld(w)
    ensures At(w, key).pxyNames != [] <==> exists d, l :: OwnRoute(FinderOf(w), key, d, l)
    ensures NoRepeats(At(w, key).pxyNames)
    ensures forall n :: n in At(w, key).pxyNames <==> n in At(w, key).createFuncs
  {
    var g := At(w, key);
    assert GroupingOf(w)(key) == g;
    assert GroupOk(FinderOf(w), key, g);
    if g != EMPTY_GROUP {
      var n :| n in g.createFuncs;
      assert n in g.pxyNames;
      assert OwnRoute(FinderOf(w), key, g.domain, g.location);
    }
    forall d, l | OwnRoute(FinderOf(w), key, d, l) ensures g != EMPTY_GROUP {
      assert RouteOk(FinderOf(w), GroupingOf(w), d, l);
    }
  }

  // ---------------------------------------------------------------- round robin

  const TWO63: nat := 0x8000_0000_0000_0000
  const TWO64: nat := 0x1_0000_0000_0000_0000

  /** `int(x)` of an unsigned 64-bit value. */
  function ToInt64(x: nat): int
    requires x < TWO64
  {
    if x < TWO63 then x else x - TWO64
  }

  /** The truncated remainder of Go's `%`. */
  function GoMod(a: int, n: nat): int
    requires n > 0
  {
    if a >= 0 then a % n else -((-a) % n)
  }

  datatype Pick = Member(name: string) | NoMember | IndexPanic

  /** The member that counter value `x` picks. */
  function PickMember(names: seq<string>, x: nat): Pick
    requires x < TWO64
  {
    if names == [] then NoMember
    else
      var i := GoMod(ToInt64(x), |names|);
      if 0 <= i < |names| then Member(names[i]) else IndexPanic
  }

  /** The pick runs off the list exactly when the counter's top bit is set and the list's
      length does not divide the counter's distance to 2^64. */
  lemma PickPanicsExactly(names: seq<string>, x: nat)
    requires x < TWO64 && names != []
    ensures PickMember(names, x).IndexPanic? <==> x >= TWO63 && (TWO64 - x) % |names| != 0
    ensures PickMember(names, x).Member? ==> PickMember(names, x).name in names
  {
    if x >= TWO63 { assert -ToInt64(x) == TWO64 - x; }
  }

  /** With three members, the pick that brings the counter to 2^63 panics. */
  lemma ThreeMembersPanic(a: string, b: string, c: string)
    ensures PickMember([a, b, c], TWO63).IndexPanic?
  {
    PickPanicsExactly([a, b, c], TWO63);
  }

  /** The names picked by `n` consecutive counter values from `x` on. */
  function Picks(names: seq<string>, x: nat, n: nat): seq<Pick>
    requires x + n <= TWO63
  {
    seq(n, i requires 0 <= i < n => PickMember(names, x + i))
  }

  function AsPicks(names: seq<string>): seq<Pick> {
    seq(|names|, i requires 0 <= i < |names| => Member(names[i]))
  }

  lemma ModShift(x: nat, i: nat, n: nat)
    requires n > 0 && i < n
    ensures (x + i) % n == if x % n + i < n then x % n + i else x % n + i - n
  {
    var q, r := x / n, x % n;
    assert x == q * n + r;
    if r + i < n {
      ModUnique(x + i, n, q, r + i);
    } else {
      assert x + i == (q + 1) * n + (r + i - n);
      ModUnique(x + i, n, q + 1, r + i - n);
    }
  }

  lemma ModUnique(a: nat, n: nat, q: nat, r: nat)
    requires n > 0 && r < n && a == q * n + r
    ensures a % n == r
  {
    var q', r' := a / n, a % n;
    assert a == q' * n + r';
    MulGap(q', q, n);
    MulGap(q, q', n);
  }

  lemma MulGap(a: nat, b: nat, n: nat)
    ensures a < b ==> a * n + n <= b * n
  {
    if a < b { assert (a + 1) * n <= b * n; }
  }

  /** As many consecutive picks as there are members go once round the list, so each member is
      picked exactly as often as it is listed: once. */
  lemma EachMemberOnce(names: seq<string>, x: nat)
    requires names != [] && x + |names| <= TWO63
    ensures var r := x % |names|;
            Picks(names, x, |names|) == AsPicks(names)[r..] + AsPicks(names)[..r]
    ensures multiset(Picks(names, x, |names|)) == multiset(AsPicks(names))
  {
    var n := |names|;
    var r := x % n;
    var once := AsPicks(names);
    forall i | 0 <= i < n
      ensures Picks(names, x, n)[i] == (once[r..] + once[..r])[i]
    {
      ModShift(x, i, n);
    }
    assert Picks(names, x, n) == once[r..] + once[..r];
    assert once == once[..r] + once[r..];
  }

  // ---------------------------------------------------------------- classes

  lemma SetTwice(m: map<string, Group>, k: string, a: Group, b: Group)
    ensures m[k := a][k := b] == m[k := b]
  {
  }

  class HTTPGroup {
    /** The index of this group in the controller. */
    const key: string
    const vhostRouter: Routers<RouteConfig>

    var group: string
    var groupKey: string
    var domain: string
    var location: string
    var createFuncs: map<string, ConnSource>
    var pxyNames: seq<string>
    var index: nat

    ghost function View(): Group
      reads this
    {
      Group(group, groupKey, domain, location, createFuncs, pxyNames)
    }

    constructor (key: string, router: Routers<RouteConfig>)
      ensures this.key == key && vhostRouter == router && View() == EMPTY_GROUP && index == 0
    {
      this.key, vhostRouter := key, router;
      group, groupKey, domain, location := "", "", "", "";
      createFuncs, pxyNames, index := map[], [], 0;
    }

    method Register(proxyName: string, group: string, groupKey: string, cfg: RouteConfig)
      returns (err: Option<GroupError>)
      modifies this, vhostRouter
      ensures var t := old(vhostRouter.routerByDomain);
              var j := Join(old(View()), Lookup(t, cfg.domain, cfg.location).Some?,
                            proxyName, group, groupKey, cfg);
              && View() == j.group && err == j.err
              && vhostRouter.routerByDomain == if j.addsRoute then AddRoute(t, RouteOf(GroupRoute(key, cfg))) else t
    {
      if |createFuncs| == 0 {
        var tmp := cfg.(createConn := WholeGroup(key));
        var ok := vhostRouter.Add(cfg.domain, cfg.location, tmp);
        if !ok { return Some(RouterConflict); }
        this.group := group;
        this.groupKey := groupKey;
        this.domain := cfg.domain;
        this.location := cfg.location;
      } else {
        if this.group != group || domain != cfg.domain || location != cfg.location {
          return Some(ParamsInvalid);
        }
        if this.groupKey != groupKey { return Some(AuthFailed); }
      }
      if proxyName in createFuncs { return Some(ProxyRepeated); }
      createFuncs := createFuncs[proxyName := cfg.createConn];
      pxyNames := pxyNames + [proxyName];
      return None;
    }

    method UnRegister(proxyName: string) returns (isEmpty: bool)
      modifies this, vhostRouter
      ensures View() == Leave(old(View()), proxyName)
      ensures isEmpty <==> createFuncs == map[]
      ensures vhostRouter.routerByDomain == (if isEmpty then DelRoute(old(vhostRouter.routerByDomain), domain, location)
                                             else old(vhostRouter.routerByDomain))
    {
      createFuncs := createFuncs - {proxyName};
      ghost var names := pxyNames;
      for i := 0 to |pxyNames|
        invariant pxyNames == names
        invariant forall k | 0 <= k < i :: names[k] != proxyName
      {
        if pxyNames[i] == proxyName {
          RemoveFirstAt(names, i);
          pxyNames := pxyNames[..i] + pxyNames[i + 1..];
          break;
        }
      }
      if proxyName !in names { RemoveAbsent(names, proxyName); }
      isEmpty := false;
      if |createFuncs| == 0 {
        isEmpty := true;
        vhostRouter.Del(domain, location);
      }
    }

    /** The source of the next connection. */
    method CreateConn() returns (p: Pick, f: Option<ConnSource>)
      requires index < TWO64
      modifies this`index
      ensures index == (old(index) + 1) % TWO64
      ensures p == PickMember(pxyNames, index)
      ensures f == if p.Member? && p.name in createFuncs then Some(createFuncs[p.name]) else None
    {
      index := (index + 1) % TWO64;
      p := PickMember(pxyNames, index);
      f := if p.Member? && p.name in createFuncs then Some(createFuncs[p.name]) else None;
    }
  }

  class HTTPGroupController {
    const vhostRouter: Routers<RouteConfig>
    var groups: map<string, HTTPGroup>

    /** Each group object sits at its own index and shares the controller's router. */
    ghost predicate Placed()
      reads this, groups.Values
    {
      forall k | k in groups :: groups[k].key == k && groups[k].vhostRouter == vhostRouter
    }

    ghost function GroupsView(): map<string, Group>
      reads this, groups.Values
    {
      map k | k in groups :: groups[k].View()
    }

    ghost function View(): World
      reads this, groups.Values, vhostRouter
    {
      World(vhostRouter.routerByDomain, GroupsView())
    }

    constructor (router: Routers<RouteConfig>)
      ensures vhostRouter == router && Placed() && View() == World(router.routerByDomain, map[])
    {
      vhostRouter := router;
      groups := map[];
    }

    /** The group at an index, created if there is none. */
    method GroupAt(indexKey: string) returns (g: HTTPGroup)
      requires Placed()
      modifies this`groups
      ensures Placed() && fresh(groups.Values - old(groups.Values))
      ensures groups == old(groups)[indexKey := g] && (fresh(g) || g in old(groups.Values))
      ensures g.View() == if indexKey in old(groups) then old(GroupsView()[indexKey]) else EMPTY_GROUP
      ensures GroupsView() == old(GroupsView())[indexKey := g.View()]
    {
      if indexKey !in groups {
        g := new HTTPGroup(indexKey, vhostRouter);
        groups := groups[indexKey := g];
      } else {
        g := groups[indexKey];
      }
    }

    /** Only the object at `key` has changed. */
    twostate lemma OneChanged(key: string)
      requires old(Placed()) && groups == old(groups) && key in groups
      requires forall k | k in groups && groups[k] != groups[key] :: unchanged(groups[k])
      ensures Placed() && GroupsView() == old(GroupsView())[key := groups[key].View()]
    {
      assert forall k | k in groups && k != key :: groups[k].key == k && groups[k] != groups[key];
    }

    method Register(proxyName: string, group: string, groupKey: string, cfg: RouteConfig)
      returns (err: Option<GroupError>)
      requires Placed()
      modifies this, groups.Values, vhostRouter
      ensures Placed() && fresh(groups.Values - old(groups.Values))
      ensures (View(), err) == RegisterIn(old(View()), proxyName, group, groupKey, cfg)
    {
      err := RegisterInGroup(GroupIndex(group, cfg.domain, cfg.location), proxyName, group, groupKey, cfg);
    }

    method RegisterInGroup(indexKey: string, proxyName: string, group: string, groupKey: string, cfg: RouteConfig)
      returns (err: Option<GroupError>)
      requires Placed()
      modifies this, groups.Values, vhostRouter
      ensures Placed() && fresh(groups.Values - old(groups.Values))
      ensures var t := old(vhostRouter.routerByDomain);
              var j := Join(At(old(View()), indexKey), Lookup(t, cfg.domain, cfg.location).Some?,
                            proxyName, group, groupKey, cfg);
              && err == j.err && GroupsView() == old(GroupsView())[indexKey := j.group]
              && vhostRouter.routerByDomain
                 == if j.addsRoute then AddRoute(t, RouteOf(GroupRoute(indexKey, cfg))) else t
    {
      var g := GroupAt(indexKey);
      assert groups[indexKey] == g;
      ghost var v0, v1 := old(GroupsView()), g.View();
      assert v1 == At(old(View()), indexKey);
      label found:
      err := g.Register(proxyName, group, groupKey, cfg);
      OneChanged@found(indexKey);
      SetTwice(v0, indexKey, v1, g.View());
    }

    method UnRegister(proxyName: string, group: string, domain: string, location: string)
      requires Placed()
      modifies this, groups.Values, vhostRouter
      ensures Placed() && groups.Values <= old(groups.Values)
      ensures View() == UnRegisterIn(old(View()), proxyName, group, domain, location)
    {
      var indexKey := GroupIndex(group, domain, location);
      if indexKey !in groups { return; }
      var g := groups[indexKey];
      var isEmpty := g.UnRegister(proxyName);
      OneChanged(indexKey);
      if isEmpty {
        groups := groups - {indexKey};
        assert GroupsView() == old(GroupsView()) - {indexKey};
      }
    }
  }
}
