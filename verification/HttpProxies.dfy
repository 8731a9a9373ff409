/** Registration of an HTTP proxy over all its domains and locations, with its undo list. It is
    all or nothing: a failed `Run`, or a `Run` followed by `Close`, leaves every list of routes
    and every group as it was. */
module HttpProxies {
  import opened Addresses
  import opened Options
  import opened Routers
  import opened VirtualHosts
  import opened HttpGroups

  datatype ProxyConf = ProxyConf(
    name: string, customDomains: seq<string>, subDomain: string, locations: seq<string>,
    group: string, groupKey: string,
    hostHeaderRewrite: string, headers: map<string, string>, httpUser: string, httpPwd: string,
    subDomainHost: string, vhostHTTPPort: int)

  /** A domain and a location. */
  datatype Place = Place(domain: string, location: string)

  function RouteFor(cfg: ProxyConf, p: Place): RouteConfig {
    RouteConfig(p.domain, p.location, cfg.hostHeaderRewrite, cfg.httpUser, cfg.httpPwd,
                cfg.headers, OneProxy(cfg.name))
  }

  function Locations(cfg: ProxyConf): seq<string> {
    if cfg.locations == [] then [""] else cfg.locations
  }

  function PlacesOf(domain: string, locations: seq<string>): seq<Place> {
    if locations == [] then []
    else [Place(domain, locations[0])] + PlacesOf(domain, locations[1..])
  }

  function CustomPlaces(domains: seq<string>, locations: seq<string>): seq<Place> {
    if domains == [] then []
    else (if domains[0] == "" then [] else PlacesOf(domains[0], locations))
         + CustomPlaces(domains[1..], locations)
  }

  function SubPlaces(cfg: ProxyConf): seq<Place> {
    if cfg.subDomain == "" then []
    else PlacesOf(cfg.subDomain + "." + cfg.subDomainHost, Locations(cfg))
  }

  /** The places a proxy registers, in order. */
  function Targets(cfg: ProxyConf): seq<Place> {
    CustomPlaces(cfg.customDomains, Locations(cfg)) + SubPlaces(cfg)
  }

  /** The addresses reported for these places, in order. */
  function AddrsOf(cfg: ProxyConf, ps: seq<Place>): seq<string> {
    seq(|ps|, i requires 0 <= i < |ps| => CanonicalAddr(ps[i].domain, cfg.vhostHTTPPort))
  }

  lemma AddrsAppend(cfg: ProxyConf, ps: seq<Place>, p: Place)
    ensures AddrsOf(cfg, ps + [p]) == AddrsOf(cfg, ps) + [CanonicalAddr(p.domain, cfg.vhostHTTPPort)]
  {
  }

  // ---------------------------------------------------------------- what the places are

  predicate IsTarget(cfg: ProxyConf, p: Place) {
    && (if cfg.locations == [] then p.location == "" else p.location in cfg.locations)
    && (|| (p.domain != "" && p.domain in cfg.customDomains)
        || (cfg.subDomain != "" && p.domain == cfg.subDomain + "." + cfg.subDomainHost))
  }

  lemma {:induction false} PlacesOfMember(domain: string, locations: seq<string>, p: Place)
    ensures p in PlacesOf(domain, locations) <==> p.domain == domain && p.location in locations
  {
    if locations != [] { PlacesOfMember(domain, locations[1..], p); }
  }

  lemma {:induction false} CustomPlacesMember(domains: seq<string>, locations: seq<string>, p: Place)
    ensures p in CustomPlaces(domains, locations)
            <==> p.domain != "" && p.domain in domains && p.location in locations
  {
    if domains != [] {
      PlacesOfMember(domains[0], locations, p);
      CustomPlacesMember(domains[1..], locations, p);
    }
  }

  /** The places are the non-empty custom domains and the subdomain of the server's host, each at every
      location, or at the empty one if none is named. */
  lemma TargetsExactly(cfg: ProxyConf, p: Place)
    ensures p in Targets(cfg) <==> IsTarget(cfg, p)
  {
    CustomPlacesMember(cfg.customDomains, Locations(cfg), p);
    PlacesOfMember(cfg.subDomain + "." + cfg.subDomainHost, Locations(cfg), p);
  }

  /** How many places the first `i` custom domains have, at `n` locations each. */
  function Offset(domains: seq<string>, i: nat, n: nat): nat
    requires i <= |domains|
  {
    if i == 0 then 0 else Offset(domains, i - 1, n) + if domains[i - 1] == "" then 0 else n
  }

  lemma {:induction false} PlacesOfAt(domain: string, locations: seq<string>, j: nat)
    requires j < |locations|
    ensures |PlacesOf(domain, locations)| == |locations|
    ensures PlacesOf(domain, locations)[j] == Place(domain, locations[j])
  {
    PlacesOfLength(domain, locations[1..]);
    if j > 0 { PlacesOfAt(domain, locations[1..], j - 1); }
  }

  lemma {:induction false} PlacesOfLength(domain: string, locations: seq<string>)
    ensures |PlacesOf(domain, locations)| == |locations|
  {
    if locations != [] { PlacesOfLength(domain, locations[1..]); }
  }

  /** The places of the first `i` domains, and those of the others. */
  lemma {:induction false} CustomPlacesSplit(domains: seq<string>, i: nat, locations: seq<string>)
    requires i <= |domains|
    ensures CustomPlaces(domains, locations)
         == CustomPlaces(domains[..i], locations) + CustomPlaces(domains[i..], locations)
    ensures |CustomPlaces(domains[..i], locations)| == Offset(domains, i, |locations|)
    decreases i
  {
    if i == 0 {
      assert domains[..0] == [] && domains[0..] == domains;
    } else {
      var shorter := domains[..i];
      CustomPlacesSplit(domains, i - 1, locations);
      CustomPlacesLast(shorter, locations);
      assert shorter[..i - 1] == domains[..i - 1];
      assert domains[i - 1..][1..] == domains[i..];
      PlacesOfLength(domains[i - 1], locations);
    }
  }

  lemma {:induction false} CustomPlacesLast(domains: seq<string>, locations: seq<string>)
    requires domains != []
    ensures var n := |domains| - 1;
            CustomPlaces(domains, locations)
            == CustomPlaces(domains[..n], locations)
               + if domains[n] == "" then [] else PlacesOf(domains[n], locations)
  {
    var n := |domains| - 1;
    if n > 0 {
      CustomPlacesLast(domains[1..], locations);
      assert domains[1..][..n - 1] == domains[..n][1..];
    }
  }

  lemma CustomPlacesLength(domains: seq<string>, locations: seq<string>)
    ensures |CustomPlaces(domains, locations)| == Offset(domains, |domains|, |locations|)
  {
    CustomPlacesSplit(domains, |domains|, locations);
    assert domains[..|domains|] == domains;
  }

  lemma CustomPlaceAt(domains: seq<string>, i: nat, locations: seq<string>, j: nat)
    requires i < |domains| && domains[i] != "" && j < |locations|
    ensures var k, places := Offset(domains, i, |locations|) + j, CustomPlaces(domains, locations);
            k < |places| && places[k] == Place(domains[i], locations[j])
  {
    var before, rest := CustomPlaces(domains[..i], locations), CustomPlaces(domains[i..], locations);
    CustomPlacesSplit(domains, i, locations);
    PlacesOfAt(domains[i], locations, j);
    assert rest[j] == Place(domains[i], locations[j]);
    assert (before + rest)[|before| + j] == rest[j];
  }

  /** The order of the places: custom domains as they are listed, each at the locations as they are
      listed, then the subdomain at the same locations, and nothing else. */
  lemma TargetsInOrder(cfg: ProxyConf, i: nat, j: nat)
    requires j < |Locations(cfg)|
    ensures var domains, n := cfg.customDomains, |Locations(cfg)|;
            && |Targets(cfg)| == Offset(domains, |domains|, n) + (if cfg.subDomain == "" then 0 else n)
            && (i < |domains| && domains[i] != "" ==>
                  Offset(domains, i, n) + j < |Targets(cfg)|
                  && Targets(cfg)[Offset(domains, i, n) + j] == Place(domains[i], Locations(cfg)[j]))
            && (cfg.subDomain != "" ==>
                  Targets(cfg)[Offset(domains, |domains|, n) + j]
                  == Place(cfg.subDomain + "." + cfg.subDomainHost, Locations(cfg)[j]))
  {
    CustomPlacesLength(cfg.customDomains, Locations(cfg));
    if cfg.subDomain != "" { PlacesOfAt(cfg.subDomain + "." + cfg.subDomainHost, Locations(cfg), j); }
    if i < |cfg.customDomains| && cfg.customDomains[i] != "" {
      CustomPlaceAt(cfg.customDomains, i, Locations(cfg), j);
    }
  }

  // ---------------------------------------------------------------- pointwise description

  type Indexer = Place -> string

  function IndexerOf(cfg: ProxyConf): Indexer {
    (p: Place) => GroupIndex(cfg.group, p.domain, p.location)
  }

  function JoinFor(cfg: ProxyConf, g: Group, taken: bool, p: Place): Joined {
    Join(g, taken, cfg.name, cfg.group, cfg.groupKey, RouteFor(cfg, p))
  }

  /** The place can be registered in this state. */
  predicate Free(cfg: ProxyConf, idx: Indexer, find: Finder, at: Grouping, p: Place) {
    if cfg.group == "" then find(p.domain, p.location).None?
    else JoinFor(cfg, at(idx(p)), find(p.domain, p.location).Some?, p).err.None?
  }

  /** The place was free in the first state and is registered in the second. */
  ghost predicate Registered(cfg: ProxyConf, idx: Indexer, find0: Finder, at0: Grouping,
                             find: Finder, at: Grouping, p: Place)
  {
    && Free(cfg, idx, find0, at0, p)
    && if cfg.group == "" then find(p.domain, p.location) == Some(RouteFor(cfg, p))
       else
         var k := idx(p);
         && at(k) == JoinFor(cfg, at0(k), false, p).group
         && find(p.domain, p.location)
            == (if at0(k).createFuncs == map[] then Some(GroupRoute(k, RouteFor(cfg, p)))
                else find0(p.domain, p.location))
  }

  /** The second state is the first with exactly the places of `done` registered. */
  ghost predicate Pending(cfg: ProxyConf, idx: Indexer, find0: Finder, at0: Grouping,
                          find: Finder, at: Grouping, done: set<Place>)
  {
    && (forall p | p in done :: Registered(cfg, idx, find0, at0, find, at, p))
    && (forall d, l | Place(d, l) !in done :: find(d, l) == find0(d, l))
    && (forall k | cfg.group == "" || !Touched(idx, done, k) :: at(k) == at0(k))
  }

  ghost predicate Touched(idx: Indexer, done: set<Place>, k: string) {
    exists p :: p in done && idx(p) == k
  }

  /** One registration, seen through the lookups. */
  ghost predicate RegistersOne(cfg: ProxyConf, idx: Indexer, find: Finder, at: Grouping,
                               find': Finder, at': Grouping, p: Place, ok: bool)
  {
    if cfg.group == "" then
      && (ok <==> find(p.domain, p.location).None?)
      && (forall k :: at'(k) == at(k))
      && if ok then SetRoute(find, find', p.domain, p.location, Some(RouteFor(cfg, p)))
         else SameRoutes(find, find')
    else
      exists err: Option<GroupError> ::
        ok == err.None?
        && Registers(find, at, find', at', idx(p), cfg.name, cfg.group, cfg.groupKey, RouteFor(cfg, p), err)
  }

  ghost predicate UndoesOne(cfg: ProxyConf, idx: Indexer, find: Finder, at: Grouping,
                            find': Finder, at': Grouping, p: Place)
  {
    if cfg.group == "" then
      (forall k :: at'(k) == at(k)) && SetRoute(find, find', p.domain, p.location, None)
    else Leaves(find, at, find', at', idx(p), cfg.name)
  }

  /** Two registered places of one proxy are in different groups. */
  lemma DifferentGroups(cfg: ProxyConf, idx: Indexer, find0: Finder, at0: Grouping,
                        find: Finder, at: Grouping, p: Place, q: Place)
    requires cfg.group != "" && idx(p) == idx(q)
    requires Registered(cfg, idx, find0, at0, find, at, p)
    requires Registered(cfg, idx, find0, at0, find, at, q)
    ensures p == q
  {
    var j := JoinFor(cfg, at0(idx(p)), false, p);
    assert j.group.domain == p.domain && j.group.location == p.location;
    var j' := JoinFor(cfg, at0(idx(q)), false, q);
    assert j'.group.domain == q.domain && j'.group.location == q.location;
  }

  /** A group that the proxy has joined once will not take it again, at this place or another. */
  lemma JoinedOnce(cfg: ProxyConf, g: Group, taken: bool, p: Place, taken': bool, q: Place)
    requires JoinFor(cfg, g, taken, p).err.None?
    ensures JoinFor(cfg, JoinFor(cfg, g, taken, p).group, taken', q).err.Some?
  {
    assert cfg.name in JoinFor(cfg, g, taken, p).group.createFuncs;
  }

  /** Registering one more place. */
  lemma PendingAdd(cfg: ProxyConf, idx: Indexer, find0: Finder, at0: Grouping, find: Finder, at: Grouping,
                   done: set<Place>, find': Finder, at': Grouping, p: Place)
    requires Pending(cfg, idx, find0, at0, find, at, done)
    requires RegistersOne(cfg, idx, find, at, find', at', p, true)
    ensures p !in done && (cfg.group != "" ==> !Touched(idx, done, idx(p)))
    ensures Pending(cfg, idx, find0, at0, find', at', done + {p})
  {
    if cfg.group != "" {
      var k := idx(p);
      if Touched(idx, done, k) {
        var q :| q in done && idx(q) == k;
        assert Registered(cfg, idx, find0, at0, find, at, q);
        assert JoinFor(cfg, at0(k), false, q).err.None?;
        JoinedOnce(cfg, at0(k), false, q, find(p.domain, p.location).Some?, p);
        assert false;
      }
      assert p !in done;
      forall q | q in done ensures Registered(cfg, idx, find0, at0, find', at', q) {
        assert Registered(cfg, idx, find0, at0, find, at, q);
        assert idx(q) != k;
      }
      assert Registered(cfg, idx, find0, at0, find', at', p);
      forall k' | !Touched(idx, done + {p}, k') ensures at'(k') == at0(k') {
        assert p in done + {p};
        assert !Touched(idx, done, k');
      }
    } else {
      assert p in done ==> Registered(cfg, idx, find0, at0, find, at, p);
      forall q | q in done ensures Registered(cfg, idx, find0, at0, find', at', q) {
        assert Registered(cfg, idx, find0, at0, find, at, q);
      }
    }
  }

  /** A registration that fails changes nothing that lookups can see; the place was registered
      already, or was not free at first. */
  lemma PendingFail(cfg: ProxyConf, idx: Indexer, find0: Finder, at0: Grouping, find: Finder, at: Grouping,
                    done: set<Place>, find': Finder, at': Grouping, p: Place)
    requires Pending(cfg, idx, find0, at0, find, at, done)
    requires RegistersOne(cfg, idx, find, at, find', at', p, false)
    ensures Pending(cfg, idx, find0, at0, find', at', done)
    ensures p in done || (cfg.group != "" && Touched(idx, done, idx(p))) || !Free(cfg, idx, find0, at0, p)
  {
    if cfg.group != "" {
      assert at'(idx(p)) == at(idx(p));
    }
    forall q | q in done ensures Registered(cfg, idx, find0, at0, find', at', q) {
      assert Registered(cfg, idx, find0, at0, find, at, q);
    }
  }

  /** Leaving the group just joined gives the group back. */
  lemma LeaveJoined(cfg: ProxyConf, g: Group, p: Place)
    requires JoinFor(cfg, g, false, p).err.None? && (g == EMPTY_GROUP || Listed(g))
    ensures var left := Leave(JoinFor(cfg, g, false, p).group, cfg.name);
            if g.createFuncs == map[] then left.createFuncs == map[] else left == g
  {
    var j := JoinFor(cfg, g, false, p).group;
    assert j.createFuncs == g.createFuncs[cfg.name := OneProxy(cfg.name)];
    if g.createFuncs != map[] {
      assert cfg.name in g.pxyNames <==> cfg.name in g.createFuncs;
      RemoveAppended(g.pxyNames, cfg.name);
      assert j.createFuncs - {cfg.name} == g.createFuncs;
    }
  }

  lemma UndoneAsBefore(cfg: ProxyConf, idx: Indexer, find0: Finder, at0: Grouping, find: Finder, at: Grouping,
                       find': Finder, at': Grouping, p: Place)
    requires GroupOk(find0, idx(p), at0(idx(p)))
    requires Registered(cfg, idx, find0, at0, find, at, p)
    requires UndoesOne(cfg, idx, find, at, find', at', p)
    ensures find'(p.domain, p.location) == find0(p.domain, p.location)
    ensures cfg.group != "" ==> at'(idx(p)) == at0(idx(p))
    ensures forall d, l | Place(d, l) != p :: find'(d, l) == find(d, l)
    ensures forall k | cfg.group == "" || k != idx(p) :: at'(k) == at(k)
  {
    if cfg.group != "" {
      LeaveJoined(cfg, at0(idx(p)), p);
      var g := at(idx(p));
      assert g == JoinFor(cfg, at0(idx(p)), false, p).group;
      assert g.domain == p.domain && g.location == p.location;
    }
  }

  /** What is undone at one place leaves every other place registered. */
  lemma StaysRegistered(cfg: ProxyConf, idx: Indexer, find0: Finder, at0: Grouping, find: Finder, at: Grouping,
                        find': Finder, at': Grouping, p: Place, q: Place)
    requires p != q
    requires Registered(cfg, idx, find0, at0, find, at, p) && Registered(cfg, idx, find0, at0, find, at, q)
    requires forall d, l | Place(d, l) != p :: find'(d, l) == find(d, l)
    requires forall k | cfg.group == "" || k != idx(p) :: at'(k) == at(k)
    ensures Registered(cfg, idx, find0, at0, find', at', q)
  {
    assert Place(q.domain, q.location) != p;
    if cfg.group != "" && idx(q) == idx(p) {
      DifferentGroups(cfg, idx, find0, at0, find, at, p, q);
    }
  }

  lemma TouchedWithout(idx: Indexer, done: set<Place>, p: Place, k: string)
    requires k != idx(p)
    ensures Touched(idx, done - {p}, k) <==> Touched(idx, done, k)
  {
    if Touched(idx, done, k) {
      var q :| q in done && idx(q) == k;
      assert q in done - {p};
    }
  }

  /** Undoing one place, in whatever order. */
  lemma PendingUndo(cfg: ProxyConf, idx: Indexer, find0: Finder, at0: Grouping, find: Finder, at: Grouping,
                    done: set<Place>, find': Finder, at': Grouping, p: Place)
    requires InOrder(find0, at0)
    requires Pending(cfg, idx, find0, at0, find, at, done) && p in done
    requires UndoesOne(cfg, idx, find, at, find', at', p)
    ensures Pending(cfg, idx, find0, at0, find', at', done - {p})
  {
    assert GroupOk(find0, idx(p), at0(idx(p)));
    assert Registered(cfg, idx, find0, at0, find, at, p);
    UndoneAsBefore(cfg, idx, find0, at0, find, at, find', at', p);
    forall q | q in done && q != p ensures Registered(cfg, idx, find0, at0, find', at', q) {
      StaysRegistered(cfg, idx, find0, at0, find, at, find', at', p, q);
    }
    forall k | cfg.group == "" || !Touched(idx, done - {p}, k) ensures at'(k) == at0(k) {
      if cfg.group != "" && k != idx(p) { TouchedWithout(idx, done, p, k); }
    }
  }

  // ---------------------------------------------------------------- on the world

  /** Every domain lists the same routes, and every index the same group. */
  ghost predicate SameWorld(w: World, w': World) {
    && (forall d :: List(w.routes, d) == List(w'.routes, d))
    && (forall k :: At(w, k) == At(w', k))
  }

  ghost predicate PendingWorld(cfg: ProxyConf, w0: World, w: World, done: set<Place>) {
    && ValidTable(w.routes)
    && Pending(cfg, IndexerOf(cfg), FinderOf(w0), GroupingOf(w0), FinderOf(w), GroupingOf(w), done)
  }

  lemma NothingPending(cfg: ProxyConf, w0: World, w: World)
    requires ValidWorld(w0) && PendingWorld(cfg, w0, w, {})
    ensures SameWorld(w, w0)
  {
    forall k ensures At(w, k) == At(w0, k) {
      assert GroupingOf(w)(k) == GroupingOf(w0)(k);
    }
    forall d ensures List(w.routes, d) == List(w0.routes, d) {
      forall l ensures Lookup(w.routes, d, l) == Lookup(w0.routes, d, l) {
        assert FinderOf(w)(d, l) == FinderOf(w0)(d, l);
      }
      SameLookupsSameList(w.routes, w0.routes, d);
    }
  }

  function RegisterOne(cfg: ProxyConf, w: World, p: Place): (World, bool) {
    if cfg.group != "" then
      var (w', err) := RegisterIn(w, cfg.name, cfg.group, cfg.groupKey, RouteFor(cfg, p));
      (w', err.None?)
    else (w.(routes := AddRoute(w.routes, RouteOf(RouteFor(cfg, p)))),
          Lookup(w.routes, p.domain, p.location).None?)
  }

  function UndoOne(cfg: ProxyConf, w: World, p: Place): World {
    if cfg.group != "" then UnRegisterIn(w, cfg.name, cfg.group, p.domain, p.location)
    else w.(routes := DelRoute(w.routes, p.domain, p.location))
  }

  lemma RegisterOneEffect(cfg: ProxyConf, w: World, p: Place)
    requires ValidTable(w.routes)
    ensures var (w', ok) := RegisterOne(cfg, w, p);
            && ValidTable(w'.routes)
            && RegistersOne(cfg, IndexerOf(cfg), FinderOf(w), GroupingOf(w), FinderOf(w'), GroupingOf(w'), p, ok)
  {
    var (w', ok) := RegisterOne(cfg, w, p);
    if cfg.group != "" {
      var key := IndexerOf(cfg)(p);
      RegisterEffect(w, key, cfg.name, cfg.group, cfg.groupKey, RouteFor(cfg, p));
      var err := RegisterAt(w, key, cfg.name, cfg.group, cfg.groupKey, RouteFor(cfg, p)).1;
      assert Registers(FinderOf(w), GroupingOf(w), FinderOf(w'), GroupingOf(w'),
                       key, cfg.name, cfg.group, cfg.groupKey, RouteFor(cfg, p), err);
    } else {
      AddRouteEffect(w.routes, RouteOf(RouteFor(cfg, p)));
    }
  }

  lemma UndoOneEffect(cfg: ProxyConf, w: World, p: Place)
    requires ValidTable(w.routes)
    requires cfg.group != "" ==> IndexerOf(cfg)(p) in w.groups
    ensures var w' := UndoOne(cfg, w, p);
            && ValidTable(w'.routes)
            && UndoesOne(cfg, IndexerOf(cfg), FinderOf(w), GroupingOf(w), FinderOf(w'), GroupingOf(w'), p)
  {
    if cfg.group != "" {
      UnRegisterEffect(w, IndexerOf(cfg)(p), cfg.name);
    } else {
      DelRouteEffect(w.routes, p.domain, p.location);
    }
  }

  lemma StepAdd(cfg: ProxyConf, w0: World, w: World, done: set<Place>, p: Place)
    requires PendingWorld(cfg, w0, w, done) && RegisterOne(cfg, w, p).1
    ensures p !in done && (cfg.group != "" ==> !Touched(IndexerOf(cfg), done, IndexerOf(cfg)(p)))
    ensures PendingWorld(cfg, w0, RegisterOne(cfg, w, p).0, done + {p})
  {
    RegisterOneEffect(cfg, w, p);
    var w' := RegisterOne(cfg, w, p).0;
    PendingAdd(cfg, IndexerOf(cfg), FinderOf(w0), GroupingOf(w0), FinderOf(w), GroupingOf(w), done,
               FinderOf(w'), GroupingOf(w'), p);
  }

  lemma StepFail(cfg: ProxyConf, w0: World, w: World, done: set<Place>, p: Place)
    requires PendingWorld(cfg, w0, w, done) && !RegisterOne(cfg, w, p).1
    ensures PendingWorld(cfg, w0, RegisterOne(cfg, w, p).0, done)
    ensures p in done || (cfg.group != "" && Touched(IndexerOf(cfg), done, IndexerOf(cfg)(p)))
            || !Free(cfg, IndexerOf(cfg), FinderOf(w0), GroupingOf(w0), p)
  {
    RegisterOneEffect(cfg, w, p);
    var w' := RegisterOne(cfg, w, p).0;
    PendingFail(cfg, IndexerOf(cfg), FinderOf(w0), GroupingOf(w0), FinderOf(w), GroupingOf(w), done,
                FinderOf(w'), GroupingOf(w'), p);
  }

  lemma RegisteredHasGroup(cfg: ProxyConf, w0: World, w: World, done: set<Place>, p: Place)
    requires PendingWorld(cfg, w0, w, done) && p in done && cfg.group != ""
    ensures IndexerOf(cfg)(p) in w.groups
  {
    var idx := IndexerOf(cfg);
    assert Registered(cfg, idx, FinderOf(w0), GroupingOf(w0), FinderOf(w), GroupingOf(w), p);
    assert GroupingOf(w)(idx(p)) == JoinFor(cfg, GroupingOf(w0)(idx(p)), false, p).group;
    assert cfg.name in At(w, idx(p)).createFuncs;
  }

  lemma StepUndo(cfg: ProxyConf, w0: World, w: World, done: set<Place>, p: Place)
    requires ValidWorld(w0) && PendingWorld(cfg, w0, w, done) && p in done
    ensures PendingWorld(cfg, w0, UndoOne(cfg, w, p), done - {p})
  {
    if cfg.group != "" { RegisteredHasGroup(cfg, w0, w, done, p); }
    UndoOneEffect(cfg, w, p);
    var w' := UndoOne(cfg, w, p);
    PendingUndo(cfg, IndexerOf(cfg), FinderOf(w0), GroupingOf(w0), FinderOf(w), GroupingOf(w), done,
                FinderOf(w'), GroupingOf(w'), p);
  }

  // ---------------------------------------------------------------- when a run succeeds

  predicate Distinct(ps: seq<Place>) {
    forall i, j | 0 <= i < j < |ps| :: ps[i] != ps[j]
  }

  predicate DistinctIndices(idx: Indexer, ps: seq<Place>) {
    forall i, j | 0 <= i < j < |ps| :: idx(ps[i]) != idx(ps[j])
  }

  /** A caller could check this before the run: no place comes twice, no two places of a
      grouped proxy have the same index, and each is free. */
  ghost predicate CanRun(cfg: ProxyConf, w: World, targets: seq<Place>) {
    && Distinct(targets)
    && (cfg.group != "" ==> DistinctIndices(IndexerOf(cfg), targets))
    && forall i | 0 <= i < |targets| :: Free(cfg, IndexerOf(cfg), FinderOf(w), GroupingOf(w), targets[i])
  }

  function SetOf(ps: seq<Place>): set<Place> {
    set p | p in ps
  }

  /** The places of `done` were registered one after the other from `w0`. */
  ghost predicate Progress(cfg: ProxyConf, w0: World, w: World, done: seq<Place>) {
    PendingWorld(cfg, w0, w, SetOf(done)) && CanRun(cfg, w0, done)
  }

  // ---------------------------------------------------------------- whole registrations

  type Stepper = (World, Place) -> (World, bool)
  type Undoer = (World, Place) -> World

  function StepOf(cfg: ProxyConf): Stepper { (w, p) => RegisterOne(cfg, w, p) }
  function UndoOf(cfg: ProxyConf): Undoer { (w, p) => UndoOne(cfg, w, p) }

  /** Registers the places in order up to the first that fails; also says how many succeeded. */
  function RegisterSeq(step: Stepper, w: World, ps: seq<Place>): (r: (World, nat))
    ensures r.1 <= |ps|
    decreases |ps|
  {
    if ps == [] then (w, 0)
    else
      var (w1, ok) := step(w, ps[0]);
      if !ok then (w1, 0)
      else
        var (w2, n) := RegisterSeq(step, w1, ps[1..]);
        (w2, n + 1)
  }

  function UndoSeq(undo: Undoer, w: World, ps: seq<Place>): World
    decreases |ps|
  {
    if ps == [] then w else UndoSeq(undo, undo(w, ps[0]), ps[1..])
  }

  /** The state after `Run`, and whether it succeeded. */
  function RunEffect(cfg: ProxyConf, w: World): (World, bool) {
    var targets := Targets(cfg);
    var (w', n) := RegisterSeq(StepOf(cfg), w, targets);
    if n == |targets| then (w', true) else (UndoSeq(UndoOf(cfg), w', targets[..n]), false)
  }

  lemma PendingWasFree(cfg: ProxyConf, w0: World, w: World, done: set<Place>, p: Place)
    requires PendingWorld(cfg, w0, w, done) && p in done
    ensures Free(cfg, IndexerOf(cfg), FinderOf(w0), GroupingOf(w0), p)
  {
    assert Registered(cfg, IndexerOf(cfg), FinderOf(w0), GroupingOf(w0), FinderOf(w), GroupingOf(w), p);
  }

  /** One more place that is free, and new with its index. */
  lemma CanRunOneMore(cfg: ProxyConf, w: World, done: seq<Place>, p: Place)
    requires CanRun(cfg, w, done) && Free(cfg, IndexerOf(cfg), FinderOf(w), GroupingOf(w), p)
    requires p !in SetOf(done) && (cfg.group != "" ==> !Touched(IndexerOf(cfg), SetOf(done), IndexerOf(cfg)(p)))
    ensures CanRun(cfg, w, done + [p])
  {
    var idx, more := IndexerOf(cfg), done + [p];
    forall i, j | 0 <= i < j < |more|
      ensures more[i] != more[j] && (cfg.group != "" ==> idx(more[i]) != idx(more[j]))
    {
      if j == |done| { assert done[i] in SetOf(done); }
    }
  }

  lemma ProgressAdd(cfg: ProxyConf, w0: World, w: World, done: seq<Place>, p: Place)
    requires Progress(cfg, w0, w, done) && RegisterOne(cfg, w, p).1
    ensures Progress(cfg, w0, RegisterOne(cfg, w, p).0, done + [p])
  {
    StepAdd(cfg, w0, w, SetOf(done), p);
    assert SetOf(done + [p]) == SetOf(done) + {p};
    PendingWasFree(cfg, w0, RegisterOne(cfg, w, p).0, SetOf(done + [p]), p);
    CanRunOneMore(cfg, w0, done, p);
  }

  lemma ProgressFail(cfg: ProxyConf, w0: World, w: World, done: seq<Place>, p: Place, rest: seq<Place>)
    requires Progress(cfg, w0, w, done) && !RegisterOne(cfg, w, p).1
    ensures PendingWorld(cfg, w0, RegisterOne(cfg, w, p).0, SetOf(done))
    ensures !CanRun(cfg, w0, done + [p] + rest)
  {
    StepFail(cfg, w0, w, SetOf(done), p);
    CannotRun(cfg, w0, done, p, rest);
  }

  /** A place that comes again, or its index does, or that was not free. */
  lemma CannotRun(cfg: ProxyConf, w: World, done: seq<Place>, p: Place, rest: seq<Place>)
    requires p in SetOf(done) || (cfg.group != "" && Touched(IndexerOf(cfg), SetOf(done), IndexerOf(cfg)(p)))
             || !Free(cfg, IndexerOf(cfg), FinderOf(w), GroupingOf(w), p)
    ensures !CanRun(cfg, w, done + [p] + rest)
  {
    var idx, targets := IndexerOf(cfg), done + [p] + rest;
    assert targets[|done|] == p;
    if p in SetOf(done) {
      var i :| 0 <= i < |done| && done[i] == p;
      CannotRepeat(cfg, w, targets, i, |done|);
    } else if cfg.group != "" && Touched(idx, SetOf(done), idx(p)) {
      var q :| q in SetOf(done) && idx(q) == idx(p);
      var i :| 0 <= i < |done| && done[i] == q;
      CannotRepeat(cfg, w, targets, i, |done|);
    } else {
      MustBeFree(cfg, w, targets, |done|);
    }
  }

  lemma CannotRepeat(cfg: ProxyConf, w: World, targets: seq<Place>, i: nat, j: nat)
    requires i < j < |targets|
    requires targets[i] == targets[j] || (cfg.group != "" && IndexerOf(cfg)(targets[i]) == IndexerOf(cfg)(targets[j]))
    ensures !CanRun(cfg, w, targets)
  {
  }

  lemma MustBeFree(cfg: ProxyConf, w: World, targets: seq<Place>, i: nat)
    requires i < |targets| && !Free(cfg, IndexerOf(cfg), FinderOf(w), GroupingOf(w), targets[i])
    ensures !CanRun(cfg, w, targets)
  {
  }

  lemma Regroup(done: seq<Place>, ps: seq<Place>, n: nat)
    requires n < |ps|
    ensures (done + [ps[0]]) + ps[1..] == done + ps && done + ps[..0] == done
    ensures (done + [ps[0]]) + ps[1..][..n] == done + ps[..n + 1]
  {
  }

  /** After `done`, the registration of `ps` has got to `w` with its first `n` places, as far as it can. */
  ghost predicate WentTo(cfg: ProxyConf, w0: World, w: World, n: nat, done: seq<Place>, ps: seq<Place>)
    requires n <= |ps|
  {
    && Distinct(done + ps[..n]) && PendingWorld(cfg, w0, w, SetOf(done + ps[..n]))
    && (n == |ps| <==> CanRun(cfg, w0, done + ps))
  }

  /** From `w`, where `done` is registered, the registration of `ps` gets as far as it can. */
  ghost predicate Went(step: Stepper, cfg: ProxyConf, w0: World, w: World, done: seq<Place>, ps: seq<Place>) {
    var (w', n) := RegisterSeq(step, w, ps);
    WentTo(cfg, w0, w', n, done, ps)
  }

  lemma WentToShift(cfg: ProxyConf, w0: World, w: World, n: nat, done: seq<Place>, ps: seq<Place>)
    requires n < |ps| && WentTo(cfg, w0, w, n, done + [ps[0]], ps[1..])
    ensures WentTo(cfg, w0, w, n + 1, done, ps)
  {
    Regroup(done, ps, n);
  }

  lemma WentOn(step: Stepper, cfg: ProxyConf, w0: World, w: World, done: seq<Place>, ps: seq<Place>)
    requires ps != [] && step(w, ps[0]).1
    requires Went(step, cfg, w0, step(w, ps[0]).0, done + [ps[0]], ps[1..])
    ensures Went(step, cfg, w0, w, done, ps)
  {
    var (w', n) := RegisterSeq(step, step(w, ps[0]).0, ps[1..]);
    WentToShift(cfg, w0, w', n, done, ps);
    RegisterSeqFirst(step, w, ps);
  }

  lemma RegisterSeqFirst(step: Stepper, w: World, ps: seq<Place>)
    requires ps != [] && step(w, ps[0]).1
    ensures var (w', n) := RegisterSeq(step, step(w, ps[0]).0, ps[1..]);
            RegisterSeq(step, w, ps) == (w', n + 1)
  {
  }

  lemma WentNoFurther(cfg: ProxyConf, w0: World, w: World, done: seq<Place>, ps: seq<Place>)
    requires ps != [] && !RegisterOne(cfg, w, ps[0]).1 && Progress(cfg, w0, w, done)
    ensures Went(StepOf(cfg), cfg, w0, w, done, ps)
  {
    ProgressFail(cfg, w0, w, done, ps[0], ps[1..]);
    Regroup(done, ps, 0);
  }

  lemma {:induction false} RegisterSeqProgress(cfg: ProxyConf, w0: World, w: World, done: seq<Place>, ps: seq<Place>)
    requires Progress(cfg, w0, w, done)
    ensures Went(StepOf(cfg), cfg, w0, w, done, ps)
    decreases |ps|
  {
    if ps == [] {
      assert done + ps == done && done + ps[..0] == done;
    } else if RegisterOne(cfg, w, ps[0]).1 {
      ProgressAdd(cfg, w0, w, done, ps[0]);
      RegisterSeqProgress(cfg, w0, RegisterOne(cfg, w, ps[0]).0, done + [ps[0]], ps[1..]);
      WentOn(StepOf(cfg), cfg, w0, w, done, ps);
    } else {
      WentNoFurther(cfg, w0, w, done, ps);
    }
  }

  lemma SetOfTail(ps: seq<Place>)
    requires ps != [] && Distinct(ps)
    ensures ps[0] in SetOf(ps) && Distinct(ps[1..]) && SetOf(ps[1..]) == SetOf(ps) - {ps[0]}
  {
    assert forall p :: p in ps <==> p == ps[0] || p in ps[1..];
  }

  lemma UndoFirst(cfg: ProxyConf, w0: World, w: World, ps: seq<Place>)
    requires ps != [] && ValidWorld(w0) && Distinct(ps) && PendingWorld(cfg, w0, w, SetOf(ps))
    ensures Distinct(ps[1..]) && PendingWorld(cfg, w0, UndoOf(cfg)(w, ps[0]), SetOf(ps[1..]))
  {
    SetOfTail(ps);
    StepUndo(cfg, w0, w, SetOf(ps), ps[0]);
  }

  lemma {:induction false} UndoSeqRestores(cfg: ProxyConf, w0: World, w: World, ps: seq<Place>)
    requires ValidWorld(w0) && Distinct(ps) && PendingWorld(cfg, w0, w, SetOf(ps))
    ensures SameWorld(UndoSeq(UndoOf(cfg), w, ps), w0)
    decreases |ps|
  {
    if ps == [] {
      assert SetOf(ps) == {};
      NothingPending(cfg, w0, w);
    } else {
      UndoFirst(cfg, w0, w, ps);
      UndoSeqRestores(cfg, w0, UndoOf(cfg)(w, ps[0]), ps[1..]);
    }
  }

  lemma NoneBefore(ps: seq<Place>, n: nat)
    requires n <= |ps|
    ensures [] + ps == ps && [] + ps[..n] == ps[..n] && (n == |ps| ==> ps[..n] == ps)
  {
  }

  /** Before the first registration. */
  lemma NoProgress(cfg: ProxyConf, w: World)
    requires ValidWorld(w)
    ensures Progress(cfg, w, w, [])
  {
    assert SetOf([]) == {};
  }

  /** All or nothing. A run succeeds exactly when its places can all be registered together.
      If it fails, every list of routes and every group is as before; if it succeeds, working
      off its undo list makes it so. */
  lemma AllOrNothing(cfg: ProxyConf, w: World)
    requires ValidWorld(w)
    ensures var (w', ok) := RunEffect(cfg, w);
            && (ok <==> CanRun(cfg, w, Targets(cfg)))
            && (ok ==> PendingWorld(cfg, w, w', SetOf(Targets(cfg))))
            && SameWorld(if ok then UndoSeq(UndoOf(cfg), w', Targets(cfg)) else w', w)
  {
    var targets := Targets(cfg);
    var (w', n) := RegisterSeq(StepOf(cfg), w, targets);
    NoProgress(cfg, w);
    RegisterSeqProgress(cfg, w, w, [], targets);
    NoneBefore(targets, n);
    UndoSeqRestores(cfg, w, w', targets[..n]);
  }

  /** The route found at a place is the proxy's: its settings, and where its connections come from. */
  predicate RoutedTo(cfg: ProxyConf, p: Place, found: Option<RouteConfig>, source: ConnSource) {
    && found.Some? && found.value.domain == p.domain && found.value.location == p.location
    && found.value.rewriteHost == cfg.hostHeaderRewrite && found.value.headers == cfg.headers
    && found.value.username == cfg.httpUser && found.value.password == cfg.httpPwd
    && found.value.createConn == source
  }

  /** The proxy has become the last member of the group, on the group's terms, which are its own. */
  predicate LastMember(cfg: ProxyConf, p: Place, before: Group, after: Group) {
    && after.pxyNames == before.pxyNames + [cfg.name]
    && after.createFuncs == before.createFuncs[cfg.name := OneProxy(cfg.name)]
    && after.group == cfg.group && after.groupKey == cfg.groupKey
    && after.domain == p.domain && after.location == p.location
    && (before.pxyNames != [] ==> before.groupKey == cfg.groupKey && before.group == cfg.group)
  }

  lemma RegisteredMeans(cfg: ProxyConf, idx: Indexer, find0: Finder, at0: Grouping,
                        find: Finder, at: Grouping, p: Place)
    requires Registered(cfg, idx, find0, at0, find, at, p) && GroupOk(find0, idx(p), at0(idx(p)))
    ensures cfg.group == "" ==> RoutedTo(cfg, p, find(p.domain, p.location), OneProxy(cfg.name))
    ensures cfg.group != "" ==>
              && LastMember(cfg, p, at0(idx(p)), at(idx(p)))
              && if at0(idx(p)).pxyNames == [] then RoutedTo(cfg, p, find(p.domain, p.location), WholeGroup(idx(p)))
                 else find(p.domain, p.location) == find0(p.domain, p.location)
  {
    EmptyTogether(find0, idx(p), at0(idx(p)));
  }

  lemma RanPending(cfg: ProxyConf, w: World, p: Place) returns (w': World)
    requires ValidWorld(w) && RunEffect(cfg, w).1
    ensures w' == RunEffect(cfg, w).0 && PendingWorld(cfg, w, w', SetOf(Targets(cfg)))
    ensures IsTarget(cfg, p) <==> p in SetOf(Targets(cfg))
  {
    AllOrNothing(cfg, w);
    w' := RunEffect(cfg, w).0;
    TargetsExactly(cfg, p);
  }

  lemma PendingMeans(cfg: ProxyConf, w: World, w': World, done: set<Place>, p: Place)
    requires ValidWorld(w) && PendingWorld(cfg, w, w', done) && p in done
    ensures var found, key := Lookup(w'.routes, p.domain, p.location), GroupIndex(cfg.group, p.domain, p.location);
            if cfg.group == "" then RoutedTo(cfg, p, found, OneProxy(cfg.name))
            else
              && LastMember(cfg, p, At(w, key), At(w', key))
              && if At(w, key).pxyNames == [] then RoutedTo(cfg, p, found, WholeGroup(key))
                 else found == Lookup(w.routes, p.domain, p.location)
  {
    var idx := IndexerOf(cfg);
    assert Registered(cfg, idx, FinderOf(w), GroupingOf(w), FinderOf(w'), GroupingOf(w'), p);
    assert GroupOk(FinderOf(w), idx(p), GroupingOf(w)(idx(p)));
    RegisteredMeans(cfg, idx, FinderOf(w), GroupingOf(w), FinderOf(w'), GroupingOf(w'), p);
  }

  /** What a run that succeeds leaves at each of its places: a route with the proxy's own settings and the
      proxy as the source of connections, or membership of the group as its last member, with the route
      of the first member leading to the group. Nothing else is routed anew. */
  lemma RanMeans(cfg: ProxyConf, w: World, p: Place)
    requires ValidWorld(w) && RunEffect(cfg, w).1
    ensures var w' := RunEffect(cfg, w).0;
            var found, key := Lookup(w'.routes, p.domain, p.location), GroupIndex(cfg.group, p.domain, p.location);
            if !IsTarget(cfg, p) then found == Lookup(w.routes, p.domain, p.location)
            else if cfg.group == "" then RoutedTo(cfg, p, found, OneProxy(cfg.name))
            else
              && LastMember(cfg, p, At(w, key), At(w', key))
              && if At(w, key).pxyNames == [] then RoutedTo(cfg, p, found, WholeGroup(key))
                 else found == Lookup(w.routes, p.domain, p.location)
  {
    var w' := RanPending(cfg, w, p);
    if IsTarget(cfg, p) {
      PendingMeans(cfg, w, w', SetOf(Targets(cfg)), p);
    } else {
      assert Place(p.domain, p.location) == p;
      assert FinderOf(w')(p.domain, p.location) == FinderOf(w)(p.domain, p.location);
    }
  }

  /** If no domain has an underscore, a run succeeds if and only if its places are distinct and each is free
      at the start. */
  lemma RunSucceedsExactly(cfg: ProxyConf, w: World)
    requires ValidWorld(w) && forall p | p in Targets(cfg) :: '_' !in p.domain
    ensures RunEffect(cfg, w).1 <==>
              && Distinct(Targets(cfg))
              && forall p | p in Targets(cfg) :: Free(cfg, IndexerOf(cfg), FinderOf(w), GroupingOf(w), p)
  {
    AllOrNothing(cfg, w);
    var targets := Targets(cfg);
    if Distinct(targets) {
      forall i, j | 0 <= i < j < |targets| ensures IndexerOf(cfg)(targets[i]) != IndexerOf(cfg)(targets[j]) {
        DistinctIndex(cfg, targets[i], targets[j]);
      }
    }
    forall p | p in targets ensures exists i :: 0 <= i < |targets| && targets[i] == p {}
  }

  lemma DistinctIndex(cfg: ProxyConf, p: Place, q: Place)
    requires p != q && '_' !in p.domain && '_' !in q.domain
    ensures IndexerOf(cfg)(p) != IndexerOf(cfg)(q)
  {
    if IndexerOf(cfg)(p) == IndexerOf(cfg)(q) {
      IndexTellsPlace(cfg.group, p.domain, p.location, q.domain, q.location);
      assert false;
    }
  }

  // ---------------------------------------------------------------- class

  /** An entry of the undo list. */
  datatype CloseFunc = LeaveGroup(place: Place) | DropRoute(place: Place)

  /** The places of an undo list. */
  function PlacesIn(fs: seq<CloseFunc>): seq<Place> {
    seq(|fs|, i requires 0 <= i < |fs| => fs[i].place)
  }

  lemma {:induction false} RegisterSeqSplit(step: Stepper, w: World, a: seq<Place>, b: seq<Place>)
    ensures var (w1, n) := RegisterSeq(step, w, a);
            RegisterSeq(step, w, a + b)
            == if n < |a| then (w1, n)
               else (RegisterSeq(step, w1, b).0, n + RegisterSeq(step, w1, b).1)
    decreases |a|
  {
    if a == [] {
      assert a + b == b;
    } else {
      assert (a + b)[1..] == a[1..] + b;
      RegisterSeqSplit(step, step(w, a[0]).0, a[1..], b);
    }
  }

  /** From `w0`, the registration of `ps` has got to the state `w` and the undo list `places`;
      `ok` says that it went through. */
  predicate Reached(step: Stepper, w0: World, ps: seq<Place>, w: World, places: seq<Place>, ok: bool) {
    RegisterSeq(step, w0, ps) == (w, |places|) && places <= ps && ok == (|places| == |ps|)
  }

  lemma ReachedNext(step: Stepper, w0: World, ps: seq<Place>, w: World, p: Place)
    requires Reached(step, w0, ps, w, ps, true)
    ensures var (w', ok) := step(w, p);
            Reached(step, w0, ps + [p], w', if ok then ps + [p] else ps, ok)
  {
    RegisterSeqSplit(step, w0, ps, [p]);
    assert RegisterSeq(step, step(w, p).0, [p][1..]) == (step(w, p).0, 0);
  }

  lemma StuckExtends(step: Stepper, w0: World, ps: seq<Place>, w: World, places: seq<Place>, rest: seq<Place>)
    requires Reached(step, w0, ps, w, places, false)
    ensures Reached(step, w0, ps + rest, w, places, false)
  {
    RegisterSeqSplit(step, w0, ps, rest);
  }

  lemma PlacesAppend(fs: seq<CloseFunc>, f: CloseFunc)
    ensures PlacesIn(fs + [f]) == PlacesIn(fs) + [f.place]
  {
  }

  lemma Associate(a: seq<Place>, b: seq<Place>, c: seq<Place>)
    ensures (a + b) + c == a + (b + c) && a + ([] + c) == a + c
  {
  }

  /** One turn of the loop over the locations of a domain, and of that over the domains. */
  lemma PlacesStep(reached: seq<Place>, domain: string, locations: seq<string>, i: nat)
    requires i < |locations|
    ensures reached + PlacesOf(domain, locations[i..])
         == (reached + [Place(domain, locations[i])]) + PlacesOf(domain, locations[i + 1..])
  {
    assert locations[i..][1..] == locations[i + 1..];
    Associate(reached, [Place(domain, locations[i])], PlacesOf(domain, locations[i + 1..]));
  }

  lemma CustomStep(reached: seq<Place>, domains: seq<string>, i: nat, locations: seq<string>)
    requires i < |domains|
    ensures reached + CustomPlaces(domains[i..], locations)
         == (if domains[i] == "" then reached else reached + PlacesOf(domains[i], locations))
            + CustomPlaces(domains[i + 1..], locations)
  {
    assert domains[i..][1..] == domains[i + 1..];
    Associate(reached, PlacesOf(domains[i], locations), CustomPlaces(domains[i + 1..], locations));
  }

  class HTTPProxy {
    const cfg: ProxyConf
    const reverseProxy: HTTPReverseProxy
    const groupCtl: HTTPGroupController
    var closeFuncs: seq<CloseFunc>

    ghost predicate Valid()
      reads this, groupCtl, groupCtl.groups.Values, reverseProxy.vhostRouter
    {
      && groupCtl.vhostRouter == reverseProxy.vhostRouter
      && groupCtl.Placed()
      && forall i | 0 <= i < |closeFuncs| :: closeFuncs[i].LeaveGroup? <==> cfg.group != ""
    }

    ghost function View(): World
      reads groupCtl, groupCtl.groups.Values, groupCtl.vhostRouter
    {
      groupCtl.View()
    }

    constructor (cfg: ProxyConf, reverseProxy: HTTPReverseProxy, groupCtl: HTTPGroupController)
      requires groupCtl.vhostRouter == reverseProxy.vhostRouter && groupCtl.Placed()
      ensures this.cfg == cfg && this.groupCtl == groupCtl && this.reverseProxy == reverseProxy
      ensures Valid() && closeFuncs == []
    {
      this.cfg, this.reverseProxy, this.groupCtl := cfg, reverseProxy, groupCtl;
      closeFuncs := [];
    }

    method RegisterInGroup(p: Place) returns (ok: bool)
      requires Valid() && cfg.group != ""
      modifies this`closeFuncs, groupCtl, groupCtl.groups.Values, reverseProxy.vhostRouter
      ensures Valid() && fresh(groupCtl.groups.Values - old(groupCtl.groups.Values))
      ensures (View(), ok) == RegisterOne(cfg, old(View()), p)
      ensures closeFuncs == if ok then old(closeFuncs) + [LeaveGroup(p)] else old(closeFuncs)
    {
      var err := groupCtl.Register(cfg.name, cfg.group, cfg.groupKey, RouteFor(cfg, p));
      if err.Some? { return false; }
      closeFuncs := closeFuncs + [LeaveGroup(p)];
      return true;
    }

    method RegisterRoute(p: Place) returns (ok: bool)
      requires Valid() && cfg.group == ""
      modifies this`closeFuncs, reverseProxy.vhostRouter
      ensures Valid() && groupCtl.groups == old(groupCtl.groups)
      ensures (View(), ok) == RegisterOne(cfg, old(View()), p)
      ensures closeFuncs == if ok then old(closeFuncs) + [DropRoute(p)] else old(closeFuncs)
    {
      ok := reverseProxy.Register(RouteFor(cfg, p));
      if ok { closeFuncs := closeFuncs + [DropRoute(p)]; }
    }

    /** Registers one place and notes how to undo it. */
    method RegisterPlace(p: Place) returns (ok: bool)
      requires Valid()
      modifies this`closeFuncs, groupCtl, groupCtl.groups.Values, reverseProxy.vhostRouter
      ensures Valid() && fresh(groupCtl.groups.Values - old(groupCtl.groups.Values))
      ensures (View(), ok) == RegisterOne(cfg, old(View()), p)
      ensures PlacesIn(closeFuncs) == if ok then PlacesIn(old(closeFuncs)) + [p] else PlacesIn(old(closeFuncs))
    {
      PlacesAppend(closeFuncs, LeaveGroup(p));
      PlacesAppend(closeFuncs, DropRoute(p));
      if cfg.group != "" {
        ok := RegisterInGroup(p);
      } else {
        ok := RegisterRoute(p);
      }
    }

    ghost predicate ReachedFrom(w0: World, ps: seq<Place>, ok: bool)
      reads this, groupCtl, groupCtl.groups.Values, groupCtl.vhostRouter
    {
      Reached(StepOf(cfg), w0, ps, View(), PlacesIn(closeFuncs), ok)
    }

    /** The addresses are those of the places on the undo list. */
    ghost predicate Noted(addrs: seq<string>)
      reads this
    {
      addrs == AddrsOf(cfg, PlacesIn(closeFuncs))
    }

    /** Registers one more place, after the places `reached`, and notes its address. */
    method RegisterNext(p: Place, addrs0: seq<string>, ghost w0: World, ghost reached: seq<Place>)
      returns (ok: bool, addrs: seq<string>)
      requires Valid() && ReachedFrom(w0, reached, true) && Noted(addrs0)
      modifies this`closeFuncs, groupCtl, groupCtl.groups.Values, reverseProxy.vhostRouter
      ensures Valid() && fresh(groupCtl.groups.Values - old(groupCtl.groups.Values))
      ensures ReachedFrom(w0, reached + [p], ok) && Noted(addrs)
    {
      ReachedNext(StepOf(cfg), w0, reached, View(), p);
      AddrsAppend(cfg, PlacesIn(closeFuncs), p);
      addrs := addrs0;
      ok := RegisterPlace(p);
      if ok { addrs := addrs + [CanonicalAddr(p.domain, cfg.vhostHTTPPort)]; }
    }

    /** Registers a domain at every location, up to the first that fails, after the places `done`. */
    method RegisterDomain(domain: string, locations: seq<string>, addrs0: seq<string>,
                          ghost w0: World, ghost done: seq<Place>)
      returns (ok: bool, addrs: seq<string>)
      requires Valid() && ReachedFrom(w0, done, true) && Noted(addrs0)
      modifies this`closeFuncs, groupCtl, groupCtl.groups.Values, reverseProxy.vhostRouter
      ensures Valid() && fresh(groupCtl.groups.Values - old(groupCtl.groups.Values))
      ensures ReachedFrom(w0, done + PlacesOf(domain, locations), ok) && Noted(addrs)
    {
      ghost var reached := done;
      addrs := addrs0;
      assert locations[0..] == locations;
      for i := 0 to |locations|
        invariant Valid() && fresh(groupCtl.groups.Values - old(groupCtl.groups.Values))
        invariant ReachedFrom(w0, reached, true) && Noted(addrs)
        invariant reached + PlacesOf(domain, locations[i..]) == done + PlacesOf(domain, locations)
      {
        ghost var p, later := Place(domain, locations[i]), PlacesOf(domain, locations[i + 1..]);
        PlacesStep(reached, domain, locations, i);
        ok, addrs := RegisterNext(Place(domain, locations[i]), addrs, w0, reached);
        if !ok {
          StuckExtends(StepOf(cfg), w0, reached + [p], View(), PlacesIn(closeFuncs), later);
          return;
        }
        reached := reached + [p];
      }
      assert reached + [] == reached;
      ok := true;
    }

    /** One turn of the loop over the custom domains: an empty domain is passed over, any other is
        registered; if that fails, the places of the later domains are not reached. */
    method RegisterCustomDomain(i: nat, locations: seq<string>, addrs0: seq<string>, ghost w0: World,
                                ghost reached: seq<Place>, ghost custom: seq<Place>)
      returns (ok: bool, addrs: seq<string>, ghost reached': seq<Place>)
      requires i < |cfg.customDomains| && Valid() && ReachedFrom(w0, reached, true) && Noted(addrs0)
      requires reached + CustomPlaces(cfg.customDomains[i..], locations) == custom
      modifies this`closeFuncs, groupCtl, groupCtl.groups.Values, reverseProxy.vhostRouter
      ensures Valid() && fresh(groupCtl.groups.Values - old(groupCtl.groups.Values))
      ensures ReachedFrom(w0, if ok then reached' else custom, ok) && Noted(addrs)
      ensures ok ==> reached' + CustomPlaces(cfg.customDomains[i + 1..], locations) == custom
    {
      var domain := cfg.customDomains[i];
      CustomStep(reached, cfg.customDomains, i, locations);
      ok, addrs, reached' := true, addrs0, reached;
      if domain == "" { return; }
      ok, addrs := RegisterDomain(domain, locations, addrs0, w0, reached);
      reached' := reached + PlacesOf(domain, locations);
      if !ok {
        StuckExtends(StepOf(cfg), w0, reached', View(), PlacesIn(closeFuncs),
                     CustomPlaces(cfg.customDomains[i + 1..], locations));
      }
    }

    /** Registers the custom domains, up to the first place that fails. */
    method RegisterCustomDomains(locations: seq<string>, ghost w0: World) returns (ok: bool, addrs: seq<string>)
      requires Valid() && closeFuncs == [] && ReachedFrom(w0, [], true)
      modifies this`closeFuncs, groupCtl, groupCtl.groups.Values, reverseProxy.vhostRouter
      ensures Valid() && fresh(groupCtl.groups.Values - old(groupCtl.groups.Values))
      ensures ReachedFrom(w0, CustomPlaces(cfg.customDomains, locations), ok) && Noted(addrs)
    {
      ghost var reached: seq<Place> := [];
      ghost var custom := CustomPlaces(cfg.customDomains, locations);
      addrs := [];
      assert cfg.customDomains[0..] == cfg.customDomains;
      for i := 0 to |cfg.customDomains|
        invariant Valid() && fresh(groupCtl.groups.Values - old(groupCtl.groups.Values))
        invariant ReachedFrom(w0, reached, true) && Noted(addrs)
        invariant reached + CustomPlaces(cfg.customDomains[i..], locations) == custom
      {
        ok, addrs, reached := RegisterCustomDomain(i, locations, addrs, w0, reached, custom);
        if !ok { return; }
      }
      assert reached + [] == reached;
      ok := true;
    }

    /** Registers everything, up to the first place that fails. */
    method RegisterAll(ghost w0: World) returns (ok: bool, addrs: seq<string>)
      requires Valid() && closeFuncs == [] && ReachedFrom(w0, [], true)
      modifies this`closeFuncs, groupCtl, groupCtl.groups.Values, reverseProxy.vhostRouter
      ensures Valid() && fresh(groupCtl.groups.Values - old(groupCtl.groups.Values))
      ensures ReachedFrom(w0, Targets(cfg), ok) && Noted(addrs)
    {
      ghost var custom, sub := CustomPlaces(cfg.customDomains, Locations(cfg)), SubPlaces(cfg);
      var locations := cfg.locations;
      if |locations| == 0 { locations := [""]; }
      ok, addrs := RegisterCustomDomains(locations, w0);
      if !ok {
        StuckExtends(StepOf(cfg), w0, custom, View(), PlacesIn(closeFuncs), sub);
      } else if cfg.subDomain != "" {
        ok, addrs := RegisterDomain(cfg.subDomain + "." + cfg.subDomainHost, locations, addrs, w0, custom);
      } else {
        assert custom + sub == custom;
      }
    }

    /** True if every place was registered, with the addresses of all of them in order. `AllOrNothing`
        says what this means. */
    method Run() returns (ok: bool, remoteAddr: string)
      requires Valid() && closeFuncs == []
      modifies this`closeFuncs, groupCtl, groupCtl.groups.Values, reverseProxy.vhostRouter
      ensures Valid() && fresh(groupCtl.groups.Values - old(groupCtl.groups.Values))
      ensures (View(), ok) == RunEffect(cfg, old(View()))
      ensures ok ==> PlacesIn(closeFuncs) == Targets(cfg)
      ensures remoteAddr == if ok then CommaJoined(AddrsOf(cfg, Targets(cfg))) else ""
    {
      ghost var w0 := View();
      var addrs;
      ok, addrs := RegisterAll(w0);
      remoteAddr := "";
      if !ok {
        StuckUndone(View(), PlacesIn(closeFuncs), w0);
        Close();
        return;
      }
      remoteAddr := CommaJoined(addrs);
    }

    lemma StuckUndone(w: World, places: seq<Place>, w0: World)
      requires Reached(StepOf(cfg), w0, Targets(cfg), w, places, false)
      ensures RunEffect(cfg, w0) == (UndoSeq(UndoOf(cfg), w, places), false)
    {
      assert places == Targets(cfg)[..|places|];
    }

    /** Works off the undo list. */
    method Close()
      requires Valid()
      modifies groupCtl, groupCtl.groups.Values, reverseProxy.vhostRouter
      ensures Valid() && groupCtl.groups.Values <= old(groupCtl.groups.Values)
      ensures closeFuncs == old(closeFuncs)
      ensures View() == UndoSeq(UndoOf(cfg), old(View()), PlacesIn(closeFuncs))
    {
      ghost var undo, places := UndoOf(cfg), PlacesIn(closeFuncs);
      assert places[0..] == places;
      for i := 0 to |closeFuncs|
        invariant Valid() && groupCtl.groups.Values <= old(groupCtl.groups.Values)
        invariant closeFuncs == old(closeFuncs)
        invariant UndoSeq(undo, View(), places[i..]) == UndoSeq(undo, old(View()), places)
      {
        assert places[i..][0] == places[i] && places[i..][1..] == places[i + 1..];
        match closeFuncs[i] {
          case LeaveGroup(p) => groupCtl.UnRegister(cfg.name, cfg.group, p.domain, p.location);
          case DropRoute(p) => reverseProxy.UnRegister(p.domain, p.location);
        }
      }
    }
  }
}
