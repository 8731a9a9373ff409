/** The virtual-host routing table: for each domain a list of routes kept in descending order of
    location, scanned for the first location that is a prefix of the path. */
module Routers {
  import opened Options

  datatype Router<+P> = Router(domain: string, location: string, payload: P)
  type Table<P> = map<string, seq<Router<P>>>

  // ---------------------------------------------------------------- order of locations

  /** `strings.Compare(a, b) < 0`. */
  predicate Less(a: string, b: string) {
    b != [] && (a == [] || a[0] < b[0] || (a[0] == b[0] && Less(a[1..], b[1..])))
  }

  /** The locations differ first at `i`, where `a` has the lower character. */
  predicate LowerAt(a: string, b: string, i: int) {
    0 <= i < |a| && i < |b| && a[..i] == b[..i] && a[i] < b[i]
  }

  /** One location is less than another if it is a proper prefix of it or has the lower character where
      they first differ. */
  lemma {:induction false} LessExactly(a: string, b: string)
    ensures Less(a, b) <==> a < b || exists i :: LowerAt(a, b, i)
  {
    if a != [] && b != [] && a[0] == b[0] {
      LessExactly(a[1..], b[1..]);
      assert a[1..] < b[1..] <==> a < b by {
        assert a == [a[0]] + a[1..] && b == [b[0]] + b[1..];
      }
      forall i | LowerAt(a[1..], b[1..], i) ensures LowerAt(a, b, i + 1) {
        assert a[..i + 1] == [a[0]] + a[1..][..i] && b[..i + 1] == [b[0]] + b[1..][..i];
      }
      forall i | LowerAt(a, b, i) ensures i > 0 && LowerAt(a[1..], b[1..], i - 1) {
        assert a[1..][..i - 1] == a[..i][1..] && b[1..][..i - 1] == b[..i][1..];
      }
    } else if a != [] && b != [] {
      assert a[0] < b[0] ==> LowerAt(a, b, 0);
      forall i | LowerAt(a, b, i) ensures a[0] < b[0] {
        assert i > 0 ==> a[..i][0] == b[..i][0];
      }
    }
  }

  lemma {:induction false} LessTransitive(a: string, b: string, c: string)
    requires Less(a, b) && Less(b, c)
    ensures Less(a, c)
  {
    if a != [] && a[0] == b[0] == c[0] {
      LessTransitive(a[1..], b[1..], c[1..]);
    }
  }

  lemma {:induction false} LessIrreflexive(a: string)
    ensures !Less(a, a)
  {
    if a != [] { LessIrreflexive(a[1..]); }
  }

  lemma {:induction false} LessTotal(a: string, b: string)
    ensures a == b || Less(a, b) || Less(b, a)
  {
    if a != [] && b != [] && a[0] == b[0] {
      LessTotal(a[1..], b[1..]);
      if a[1..] == b[1..] { assert a == [a[0]] + a[1..] == b; }
    }
  }

  lemma LessAsymmetric(a: string, b: string)
    requires Less(a, b)
    ensures !Less(b, a) && a != b
  {
    LessIrreflexive(a);
    if Less(b, a) { LessTransitive(a, b, a); }
  }

  lemma {:induction false} ProperPrefixLess(a: string, b: string)
    requires a < b
    ensures Less(a, b)
  {
    if a != [] {
      assert b[1..][..|a| - 1] == a[1..];
      ProperPrefixLess(a[1..], b[1..]);
    }
  }

  predicate Descending<P>(vrs: seq<Router<P>>) {
    forall i, j | 0 <= i < j < |vrs| :: Less(vrs[j].location, vrs[i].location)
  }

  lemma HeadIsMax<P>(a: seq<Router<P>>, r: Router<P>)
    requires Descending(a) && r in a
    ensures r == a[0] || Less(r.location, a[0].location)
  {
  }

  lemma TailWithout<P>(a: seq<Router<P>>, r: Router<P>)
    requires Descending(a) && a != []
    ensures r in a[1..] <==> r in a && r != a[0]
  {
    LessIrreflexive(a[0].location);
  }

  lemma NonemptyHasMember<T(!new)>(s: seq<T>)
    ensures s == [] || exists x :: x in s
  {
    if s != [] { assert s[0] in s; }
  }

  /** There is one way only to put a set of routes in descending order. */
  lemma {:induction false} DescendingUnique<P(!new)>(a: seq<Router<P>>, b: seq<Router<P>>)
    requires Descending(a) && Descending(b)
    requires forall r :: r in a <==> r in b
    ensures a == b
  {
    if a == [] {
      NonemptyHasMember(b);
    } else {
      assert a[0] in b;
      HeadIsMax(b, a[0]);
      assert b[0] in a;
      HeadIsMax(a, b[0]);
      if a[0] != b[0] { LessAsymmetric(a[0].location, b[0].location); }
      forall r ensures r in a[1..] <==> r in b[1..] {
        TailWithout(a, r);
        TailWithout(b, r);
      }
      DescendingUnique(a[1..], b[1..]);
    }
  }

  // ---------------------------------------------------------------- sorting

  function Insert<P>(vrs: seq<Router<P>>, r: Router<P>): seq<Router<P>> {
    if vrs == [] then [r]
    else if Less(r.location, vrs[0].location) then [vrs[0]] + Insert(vrs[1..], r)
    else [r] + vrs
  }

  /** `sort.Sort(sort.Reverse(ByLocation(vrs)))`. */
  function SortReverse<P>(vrs: seq<Router<P>>): seq<Router<P>> {
    if vrs == [] then [] else Insert(SortReverse(vrs[..|vrs| - 1]), vrs[|vrs| - 1])
  }

  lemma {:induction false} InsertElements<P>(vrs: seq<Router<P>>, r: Router<P>)
    ensures multiset(Insert(vrs, r)) == multiset(vrs) + multiset{r}
  {
    if vrs != [] {
      assert vrs == [vrs[0]] + vrs[1..];
      InsertElements(vrs[1..], r);
    }
  }

  lemma MemberOfInsert<P>(vrs: seq<Router<P>>, r: Router<P>, x: Router<P>)
    ensures x in Insert(vrs, r) <==> x == r || x in vrs
  {
    InsertElements(vrs, r);
    assert x in Insert(vrs, r) <==> x in multiset(Insert(vrs, r));
    assert x in vrs <==> x in multiset(vrs);
  }

  lemma {:induction false} InsertDescending<P>(vrs: seq<Router<P>>, r: Router<P>)
    requires Descending(vrs) && forall x | x in vrs :: x.location != r.location
    ensures Descending(Insert(vrs, r))
  {
    if vrs != [] {
      var h := vrs[0];
      assert h in vrs;
      LessTotal(r.location, h.location);
      if Less(r.location, h.location) {
        InsertDescending(vrs[1..], r);
        var rest := Insert(vrs[1..], r);
        forall j | 0 <= j < |rest| ensures Less(rest[j].location, h.location) {
          MemberOfInsert(vrs[1..], r, rest[j]);
        }
      } else {
        forall j | 0 <= j < |vrs| ensures Less(vrs[j].location, r.location) {
          if j > 0 { LessTransitive(vrs[j].location, h.location, r.location); }
        }
      }
    }
  }

  /** One more route, put in its place among the sorted ones. */
  lemma InsertSorts<P>(vrs: seq<Router<P>>, sorted: seq<Router<P>>, r: Router<P>)
    requires Descending(sorted) && multiset(sorted) == multiset(vrs)
    requires forall i | 0 <= i < |vrs| :: vrs[i].location != r.location
    ensures Descending(Insert(sorted, r)) && multiset(Insert(sorted, r)) == multiset(vrs + [r])
  {
    forall x | x in sorted ensures x.location != r.location { assert x in multiset(vrs); }
    InsertDescending(sorted, r);
    InsertElements(sorted, r);
  }

  /** Sorting keeps the routes, and puts routes with distinct locations in descending order. */
  lemma {:induction false} SortReverseSorts<P>(vrs: seq<Router<P>>)
    requires forall i, j | 0 <= i < j < |vrs| :: vrs[i].location != vrs[j].location
    ensures Descending(SortReverse(vrs)) && multiset(SortReverse(vrs)) == multiset(vrs)
  {
    if vrs != [] {
      var n := |vrs| - 1;
      SortReverseSorts(vrs[..n]);
      InsertSorts(vrs[..n], SortReverse(vrs[..n]), vrs[n]);
      assert vrs == vrs[..n] + [vrs[n]];
    }
  }

  // ---------------------------------------------------------------- the table as a value

  function List<P>(t: Table<P>, domain: string): seq<Router<P>> {
    if domain in t then t[domain] else []
  }

  ghost predicate ValidTable<P(!new)>(t: Table<P>) {
    && (forall d | d in t :: Descending(t[d]))
    && (forall d, r | d in t && r in t[d] :: r.domain == d)
  }

  /** The payload registered for exactly this domain and location. */
  function Find<P>(vrs: seq<Router<P>>, location: string): Option<P> {
    if vrs == [] then None
    else if vrs[0].location == location then Some(vrs[0].payload)
    else Find(vrs[1..], location)
  }

  function Lookup<P>(t: Table<P>, domain: string, location: string): Option<P> {
    Find(List(t, domain), location)
  }

  function AddRoute<P>(t: Table<P>, r: Router<P>): Table<P> {
    if Lookup(t, r.domain, r.location).Some? then t
    else t[r.domain := SortReverse(List(t, r.domain) + [r])]
  }

  function Without<P>(vrs: seq<Router<P>>, location: string): seq<Router<P>> {
    if vrs == [] then []
    else (if vrs[0].location != location then [vrs[0]] else []) + Without(vrs[1..], location)
  }

  function DelRoute<P>(t: Table<P>, domain: string, location: string): Table<P> {
    if domain !in t then t else t[domain := Without(t[domain], location)]
  }

  function FirstMatch<P>(vrs: seq<Router<P>>, path: string): Option<Router<P>> {
    if vrs == [] then None
    else if vrs[0].location <= path then Some(vrs[0])
    else FirstMatch(vrs[1..], path)
  }

  function GetRoute<P>(t: Table<P>, host: string, path: string): Option<Router<P>> {
    FirstMatch(List(t, host), path)
  }

  // ---------------------------------------------------------------- properties of the operations

  lemma {:induction false} FindMember<P(!new)>(vrs: seq<Router<P>>, location: string)
    requires Descending(vrs)
    ensures Find(vrs, location).None? ==> forall x | x in vrs :: x.location != location
    ensures forall x | x in vrs && x.location == location :: Find(vrs, location) == Some(x.payload)
    ensures Find(vrs, location).Some? ==>
              exists x :: x in vrs && x.location == location && x.payload == Find(vrs, location).value
  {
    if vrs != [] {
      FindMember(vrs[1..], location);
      assert forall x | x in vrs :: x == vrs[0] || x in vrs[1..];
      LessIrreflexive(location);
      assert vrs[0] in vrs;
    }
  }

  lemma {:induction false} WithoutMember<P(!new)>(vrs: seq<Router<P>>, location: string)
    requires Descending(vrs)
    ensures Descending(Without(vrs, location))
    ensures forall x :: x in Without(vrs, location) <==> x in vrs && x.location != location
  {
    if vrs != [] {
      WithoutMember(vrs[1..], location);
      var w := Without(vrs[1..], location);
      forall j | 0 <= j < |w| ensures Less(w[j].location, vrs[0].location) {
        var x := w[j];
        assert x in w;
        assert x in vrs[1..];
        HeadIsMax(vrs, x);
        TailWithout(vrs, x);
      }
      assert forall x :: x in vrs <==> x == vrs[0] || x in vrs[1..];
    }
  }

  /** Two lists in descending order that answer every lookup alike hold the same routes. */
  lemma SameFindSameList<P(!new)>(a: seq<Router<P>>, b: seq<Router<P>>, domain: string)
    requires Descending(a) && Descending(b)
    requires forall r | r in a || r in b :: r.domain == domain
    requires forall l :: Find(a, l) == Find(b, l)
    ensures a == b
  {
    forall r ensures r in a <==> r in b {
      FindMember(a, r.location);
      FindMember(b, r.location);
    }
    DescendingUnique(a, b);
  }

  /** Sorting a new route into a list in order. */
  lemma SortedIn<P(!new)>(vrs: seq<Router<P>>, r: Router<P>)
    requires Descending(vrs) && Find(vrs, r.location).None?
    ensures Descending(SortReverse(vrs + [r]))
    ensures forall x :: x in SortReverse(vrs + [r]) <==> x == r || x in vrs
  {
    var all := vrs + [r];
    FindMember(vrs, r.location);
    forall i, j | 0 <= i < j < |all| ensures all[i].location != all[j].location {
      if j < |vrs| { LessIrreflexive(vrs[i].location); } else { assert vrs[i] in vrs; }
    }
    SortReverseSorts(all);
    forall x ensures x in SortReverse(all) <==> x == r || x in vrs {
      assert x in SortReverse(all) <==> x in multiset(SortReverse(all));
      assert x in all <==> x in multiset(all);
    }
  }

  lemma FindWithOneMore<P(!new)>(vrs: seq<Router<P>>, more: seq<Router<P>>, r: Router<P>, location: string)
    requires Descending(vrs) && Descending(more) && Find(vrs, r.location).None?
    requires forall x :: x in more <==> x == r || x in vrs
    ensures Find(more, location) == if location == r.location then Some(r.payload) else Find(vrs, location)
  {
    FindMember(more, location);
    FindMember(vrs, location);
  }

  /** `AddRoute` makes the one route findable and changes no other; the lists stay in order. */
  lemma AddRouteEffect<P(!new)>(t: Table<P>, r: Router<P>)
    requires ValidTable(t)
    ensures ValidTable(AddRoute(t, r))
    ensures forall d, l ::
              Lookup(AddRoute(t, r), d, l)
              == (if d == r.domain && l == r.location && Lookup(t, d, l).None? then Some(r.payload)
                  else Lookup(t, d, l))
  {
    if Lookup(t, r.domain, r.location).None? {
      var vrs := List(t, r.domain);
      SortedIn(vrs, r);
      forall l { FindWithOneMore(vrs, SortReverse(vrs + [r]), r, l); }
    }
  }

  /** Tables that answer lookups in a domain alike list it alike. */
  lemma SameLookupsSameList<P(!new)>(a: Table<P>, b: Table<P>, domain: string)
    requires ValidTable(a) && ValidTable(b)
    requires forall l :: Lookup(a, domain, l) == Lookup(b, domain, l)
    ensures List(a, domain) == List(b, domain)
  {
    forall l ensures Find(List(a, domain), l) == Find(List(b, domain), l) {
      assert Lookup(a, domain, l) == Lookup(b, domain, l);
    }
    SameFindSameList(List(a, domain), List(b, domain), domain);
  }

  lemma DelRouteEffect<P(!new)>(t: Table<P>, domain: string, location: string)
    requires ValidTable(t)
    ensures ValidTable(DelRoute(t, domain, location))
    ensures forall d, l ::
              Lookup(DelRoute(t, domain, location), d, l)
              == (if d == domain && l == location then None else Lookup(t, d, l))
  {
    if domain in t {
      var before, after := t[domain], Without(t[domain], location);
      WithoutMember(before, location);
      forall l ensures Find(after, l) == if l == location then None else Find(before, l) {
        FindMember(after, l);
        FindMember(before, l);
      }
    }
  }

  /** The first match in descending order is the longest registered prefix of the path. */
  lemma {:induction false} FirstMatchLongest<P>(vrs: seq<Router<P>>, path: string)
    requires Descending(vrs)
    ensures FirstMatch(vrs, path).None? ==> forall x | x in vrs :: !(x.location <= path)
    ensures FirstMatch(vrs, path).Some? ==>
              var r := FirstMatch(vrs, path).value;
              && r in vrs && r.location <= path
              && forall x | x in vrs && x.location <= path :: |x.location| <= |r.location|
  {
    if vrs != [] {
      FirstMatchLongest(vrs[1..], path);
      assert forall x | x in vrs :: x == vrs[0] || x in vrs[1..];
      if vrs[0].location <= path {
        forall x | x in vrs[1..] && x.location <= path ensures |x.location| <= |vrs[0].location| {
          if |x.location| > |vrs[0].location| {
            assert vrs[0].location == path[..|vrs[0].location|] == x.location[..|vrs[0].location|];
            ProperPrefixLess(vrs[0].location, x.location);
            LessAsymmetric(x.location, vrs[0].location);
          }
        }
      }
    }
  }

  /** `r` is the route of the longest location registered for `host` that is a prefix of `path`. */
  ghost predicate IsLongest<P>(t: Table<P>, host: string, path: string, r: Router<P>) {
    && r.domain == host && r.location <= path && Lookup(t, host, r.location) == Some(r.payload)
    && forall l | l <= path && Lookup(t, host, l).Some? :: |l| <= |r.location|
  }

  lemma GetRouteLongest<P(!new)>(t: Table<P>, host: string, path: string)
    requires ValidTable(t)
    ensures forall r :: GetRoute(t, host, path) == Some(r) <==> IsLongest(t, host, path, r)
    ensures GetRoute(t, host, path).None? <==> forall l | l <= path :: Lookup(t, host, l).None?
  {
    var vrs := List(t, host);
    FirstMatchLongest(vrs, path);
    forall l ensures Find(vrs, l).Some? <==> exists x :: x in vrs && x.location == l {
      FindMember(vrs, l);
    }
    if GetRoute(t, host, path).Some? {
      var g := GetRoute(t, host, path).value;
      FindMember(vrs, g.location);
      forall l | l <= path && Lookup(t, host, l).Some? ensures |l| <= |g.location| {
        var x :| x in vrs && x.location == l;
      }
      assert IsLongest(t, host, path, g);
      forall r | IsLongest(t, host, path, r) ensures r == g {
        assert |r.location| <= |g.location| && |g.location| <= |r.location|;
        assert r.location == path[..|r.location|] == g.location;
      }
    } else {
      forall l | l <= path ensures Lookup(t, host, l).None? {}
    }
  }

  /** One turn of the loop that deletes. */
  lemma WithoutStep<P>(done: seq<Router<P>>, vrs: seq<Router<P>>, i: nat, location: string)
    requires i < |vrs|
    ensures done + Without(vrs[i..], location)
         == (if vrs[i].location != location then done + [vrs[i]] else done) + Without(vrs[i + 1..], location)
  {
    assert vrs[i..][1..] == vrs[i + 1..];
    var rest := Without(vrs[i + 1..], location);
    assert done + ([vrs[i]] + rest) == done + [vrs[i]] + rest && done + ([] + rest) == done + rest;
  }

  // ---------------------------------------------------------------- the class

  /** The methods follow the functions above; `AddRouteEffect` and `DelRouteEffect` say that these
      keep `ValidTable`. */
  class Routers<P(!new)> {
    var routerByDomain: Table<P>

    constructor ()
      ensures routerByDomain == map[]
    {
      routerByDomain := map[];
    }

    /** False when the domain already has a route for the location. */
    method Add(domain: string, location: string, payload: P) returns (ok: bool)
      modifies this
      ensures ok <==> Lookup(old(routerByDomain), domain, location).None?
      ensures routerByDomain == AddRoute(old(routerByDomain), Router(domain, location, payload))
    {
      var exist := Exist(domain, location);
      if exist { return false; }
      var vrs := if domain in routerByDomain then routerByDomain[domain] else [];
      vrs := vrs + [Router(domain, location, payload)];
      vrs := SortReverse(vrs);
      routerByDomain := routerByDomain[domain := vrs];
      return true;
    }

    method Del(domain: string, location: string)
      modifies this
      ensures routerByDomain == DelRoute(old(routerByDomain), domain, location)
    {
      if domain !in routerByDomain { return; }
      var vrs := routerByDomain[domain];
      var newVrs: seq<Router<P>> := [];
      var i := 0;
      assert vrs[0..] == vrs;
      while i < |vrs|
        invariant 0 <= i <= |vrs| && routerByDomain == old(routerByDomain)
        invariant newVrs + Without(vrs[i..], location) == Without(vrs, location)
      {
        WithoutStep(newVrs, vrs, i, location);
        if vrs[i].location != location {
          newVrs := newVrs + [vrs[i]];
        }
        i := i + 1;
      }
      assert vrs[i..] == [] && newVrs + [] == newVrs;
      routerByDomain := routerByDomain[domain := newVrs];
    }

    /** `GetRouteLongest` says what the answer is. */
    method Get(host: string, path: string) returns (vr: Option<Router<P>>)
      ensures vr == GetRoute(routerByDomain, host, path)
    {
      if host !in routerByDomain { return None; }
      var vrs := routerByDomain[host];
      var i := 0;
      assert vrs[0..] == vrs;
      while i < |vrs|
        invariant 0 <= i <= |vrs|
        invariant FirstMatch(vrs, path) == FirstMatch(vrs[i..], path)
      {
        assert vrs[i..][1..] == vrs[i + 1..];
        if vrs[i].location <= path { return Some(vrs[i]); }
        i := i + 1;
      }
      return None;
    }

    method Exist(host: string, path: string) returns (found: bool)
      ensures found <==> Lookup(routerByDomain, host, path).Some?
    {
      if host !in routerByDomain { return false; }
      var vrs := routerByDomain[host];
      var i := 0;
      assert vrs[0..] == vrs;
      while i < |vrs|
        invariant 0 <= i <= |vrs|
        invariant Find(vrs, path) == Find(vrs[i..], path)
      {
        assert vrs[i..][1..] == vrs[i + 1..];
        if path == vrs[i].location { return true; }
        i := i + 1;
      }
      return false;
    }
  }

  // ---------------------------------------------------------------- whole runs

  datatype RouteOp<P> = AddOp(route: Router<P>) | DelOp(domain: string, location: string)

  function Apply<P>(t: Table<P>, op: RouteOp<P>): Table<P> {
    match op
    case AddOp(r) => AddRoute(t, r)
    case DelOp(d, l) => DelRoute(t, d, l)
  }

  function Run<P>(ops: seq<RouteOp<P>>): Table<P> {
    if ops == [] then map[] else Apply(Run(ops[..|ops| - 1]), ops[|ops| - 1])
  }

  /** The reference model: a finite map from domain and location to payload. */
  function RunMap<P>(ops: seq<RouteOp<P>>): map<(string, string), P> {
    if ops == [] then map[] else
      var m := RunMap(ops[..|ops| - 1]);
      match ops[|ops| - 1]
      case AddOp(r) =>
        if (r.domain, r.location) in m then m else m[(r.domain, r.location) := r.payload]
      case DelOp(d, l) => m - {(d, l)}
  }

  lemma {:induction false} RunAgrees<P(!new)>(ops: seq<RouteOp<P>>)
    ensures ValidTable(Run(ops))
    ensures forall d, l ::
              Lookup(Run(ops), d, l)
              == (if (d, l) in RunMap(ops) then Some(RunMap(ops)[(d, l)]) else None)
  {
    if ops != [] {
      var prev := Run(ops[..|ops| - 1]);
      RunAgrees(ops[..|ops| - 1]);
      match ops[|ops| - 1]
      case AddOp(r) => AddRouteEffect(prev, r);
      case DelOp(d, l) => DelRouteEffect(prev, d, l);
    }
  }

  /** After any sequence of additions and deletions, the scan answers the longest registered
      location that is a prefix of the path, or nothing when there is none. */
  lemma RunLongestPrefix<P(!new)>(ops: seq<RouteOp<P>>, host: string, path: string)
    ensures match GetRoute(Run(ops), host, path)
            case None => forall l | l <= path :: (host, l) !in RunMap(ops)
            case Some(r) =>
              && r.domain == host && r.location <= path
              && (host, r.location) in RunMap(ops) && RunMap(ops)[(host, r.location)] == r.payload
              && forall l | l <= path && (host, l) in RunMap(ops) :: |l| <= |r.location|
  {
    RunAgrees(ops);
    GetRouteLongest(Run(ops), host, path);
    if GetRoute(Run(ops), host, path).Some? {
      var r := GetRoute(Run(ops), host, path).value;
      assert IsLongest(Run(ops), host, path, r);
      forall l | l <= path && (host, l) in RunMap(ops) ensures |l| <= |r.location| {
        assert Lookup(Run(ops), host, l).Some?;
      }
    } else {
      forall l | l <= path ensures (host, l) !in RunMap(ops) {
        assert Lookup(Run(ops), host, l).None?;
      }
    }
  }
}
