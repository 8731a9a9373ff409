/** Finding the route of a request: the exact host first, then wildcard domains. The HTTP reverse
    proxy and the connection muxer each hold a routing table and their own copy of the loop. */
module VirtualHosts {
  import opened Options
  import opened Routers
  import Names

  // ---------------------------------------------------------------- specification

  function Wildcards(labels: seq<string>): (cs: seq<string>) {
    if |labels| < 3 then []
    else ["*." + Names.Join(labels[1..])] + Wildcards(labels[1..])
  }

  /** The domains to try for a host, in order. */
  function Candidates(host: string): seq<string> {
    [host] + Wildcards(Names.Split(host))
  }

  function FirstRoute<P>(t: Table<P>, candidates: seq<string>, path: string): Option<Router<P>> {
    if candidates == [] then None
    else if GetRoute(t, candidates[0], path).Some? then GetRoute(t, candidates[0], path)
    else FirstRoute(t, candidates[1..], path)
  }

  function FindVhost<P>(t: Table<P>, host: string, path: string): Option<Router<P>> {
    FirstRoute(t, Candidates(host), path)
  }

  /** `c` is "*." and a proper suffix of `host` that starts after a dot and has two labels or more. */
  ghost predicate WildcardOf(c: string, host: string) {
    exists pre, suf :: SplitsAt(host, pre, suf) && '.' in suf && c == "*." + suf
  }

  predicate SplitsAt(host: string, pre: string, suf: string) {
    host == pre + "." + suf
  }

  // ---------------------------------------------------------------- the candidates

  lemma {:induction false} WildcardsAt(labels: seq<string>, i: nat)
    ensures |Wildcards(labels)| == if |labels| < 3 then 0 else |labels| - 2
    ensures i < |Wildcards(labels)| ==> Wildcards(labels)[i] == "*." + Names.Join(labels[i + 1..])
  {
    if |labels| >= 3 {
      if i > 0 {
        WildcardsAt(labels[1..], i - 1);
        if i < |labels| { assert labels[1..][i..] == labels[i + 1..]; }
      } else {
        WildcardsAt(labels[1..], 0);
      }
    }
  }

  lemma {:induction false} JoinSuffix(labels: seq<string>, i: nat) returns (pre: string)
    requires 0 < i < |labels|
    ensures Names.Join(labels) == pre + "." + Names.Join(labels[i..])
  {
    if i == 1 {
      pre := labels[0];
    } else {
      var p := JoinSuffix(labels[1..], i - 1);
      assert labels[1..][i - 1..] == labels[i..];
      pre := labels[0] + "." + p;
      var tail := "." + Names.Join(labels[i..]);
      assert (labels[0] + "." + p) + tail == labels[0] + "." + (p + tail);
    }
  }

  /** The wildcards tried are exactly those of the host, longest first. */
  lemma WildcardsExactly(host: string)
    ensures var ws := Wildcards(Names.Split(host));
            && (forall c :: c in ws <==> WildcardOf(c, host))
            && (forall i, j | 0 <= i < j < |ws| :: |ws[i]| > |ws[j]|)
  {
    var labels := Names.Split(host);
    var ws := Wildcards(labels);
    Names.JoinSplit(host);
    WildcardsAt(labels, 0);
    forall i | 0 <= i < |ws| ensures WildcardOf(ws[i], host) {
      WildcardsAt(labels, i);
      var pre := JoinSuffix(labels, i + 1);
      var suf := Names.Join(labels[i + 1..]);
      Names.SplitJoin(labels[i + 1..]);
      Names.DotLabels(suf);
      assert SplitsAt(host, pre, suf);
    }
    forall c | WildcardOf(c, host) ensures c in ws {
      var pre, suf :| SplitsAt(host, pre, suf) && '.' in suf && c == "*." + suf;
      Names.SplitSuffix(pre, suf);
      Names.DotLabels(suf);
      Names.JoinSplit(suf);
      var i := |labels| - |Names.Split(suf)| - 1;
      WildcardsAt(labels, i);
      assert ws[i] == c;
    }
    forall i, j | 0 <= i < j < |ws| ensures |ws[i]| > |ws[j]| {
      WildcardsAt(labels, i);
      WildcardsAt(labels, j);
      var pre := JoinSuffix(labels[i + 1..], j - i);
      assert labels[i + 1..][j - i..] == labels[j + 1..];
    }
  }

  lemma {:induction false} FirstRouteFirst<P>(t: Table<P>, cs: seq<string>, path: string)
    ensures match FirstRoute(t, cs, path)
            case None => forall i | 0 <= i < |cs| :: GetRoute(t, cs[i], path).None?
            case Some(r) =>
              exists i | 0 <= i < |cs| ::
                GetRoute(t, cs[i], path) == Some(r)
                && forall k | 0 <= k < i :: GetRoute(t, cs[k], path).None?
  {
    if cs != [] && GetRoute(t, cs[0], path).None? {
      FirstRouteFirst(t, cs[1..], path);
      if FirstRoute(t, cs, path).Some? {
        var r := FirstRoute(t, cs, path).value;
        var i :| 0 <= i < |cs| - 1 && GetRoute(t, cs[1..][i], path) == Some(r)
                 && forall k | 0 <= k < i :: GetRoute(t, cs[1..][k], path).None?;
        assert GetRoute(t, cs[i + 1], path) == Some(r);
        forall k | 0 <= k < i + 1 ensures GetRoute(t, cs[k], path).None? {
          if k > 0 { assert cs[k] == cs[1..][k - 1]; }
        }
      } else {
        forall i | 0 <= i < |cs| ensures GetRoute(t, cs[i], path).None? {
          if i > 0 { assert cs[i] == cs[1..][i - 1]; }
        }
      }
    }
  }

  ghost predicate NoLocation<P>(t: Table<P>, domain: string, path: string) {
    forall l | l <= path :: Lookup(t, domain, l).None?
  }

  lemma NoRouteNoLocation<P(!new)>(t: Table<P>, domain: string, path: string)
    requires ValidTable(t) && GetRoute(t, domain, path).None?
    ensures NoLocation(t, domain, path)
  {
    GetRouteLongest(t, domain, path);
  }

  /** No location of a wildcard of `host` longer than `n` matches. */
  ghost predicate LongerMiss<P>(t: Table<P>, host: string, path: string, n: int) {
    forall c | WildcardOf(c, host) && |c| > n :: NoLocation(t, c, path)
  }

  lemma MissedSoFar<P(!new)>(t: Table<P>, host: string, path: string, i: nat)
    requires ValidTable(t)
    requires var cs := Candidates(host);
             0 < i <= |cs| && forall k | 0 <= k < i :: GetRoute(t, cs[k], path).None?
    ensures NoLocation(t, host, path)
    ensures LongerMiss(t, host, path, if i < |Candidates(host)| then |Candidates(host)[i]| else -1)
  {
    var cs := Candidates(host);
    var ws := Wildcards(Names.Split(host));
    WildcardsExactly(host);
    assert GetRoute(t, cs[0], path).None?;
    NoRouteNoLocation(t, host, path);
    forall c | WildcardOf(c, host) && (i < |cs| ==> |c| > |cs[i]|) ensures NoLocation(t, c, path) {
      assert c in ws;
      var k :| 0 <= k < |ws| && ws[k] == c;
      if i < |cs| { assert cs[i] == ws[i - 1]; }
      assert k + 1 < i;
      assert cs[k + 1] == c;
      NoRouteNoLocation(t, c, path);
    }
  }

  /** What the lookup answers: the longest location registered for the host itself; failing
      that, for the longest wildcard of the host that has one; failing that, nothing. */
  lemma FindVhostMeaning<P(!new)>(t: Table<P>, host: string, path: string)
    requires ValidTable(t)
    ensures match FindVhost(t, host, path)
            case Some(r) =>
              && IsLongest(t, r.domain, path, r)
              && (r.domain == host
                  || (&& NoLocation(t, host, path) && WildcardOf(r.domain, host)
                      && LongerMiss(t, host, path, |r.domain|)))
            case None => NoLocation(t, host, path) && LongerMiss(t, host, path, -1)
  {
    var cs := Candidates(host);
    FirstRouteFirst(t, cs, path);
    match FindVhost(t, host, path)
    case None =>
      MissedSoFar(t, host, path, |cs|);
    case Some(r) =>
      var i :| 0 <= i < |cs| && GetRoute(t, cs[i], path) == Some(r)
               && forall k | 0 <= k < i :: GetRoute(t, cs[k], path).None?;
      GetRouteLongest(t, cs[i], path);
      assert IsLongest(t, cs[i], path, r);
      if i > 0 {
        MissedSoFar(t, host, path, i);
        WildcardsExactly(host);
        assert cs[i] in Wildcards(Names.Split(host));
      }
  }

  /** The two steps of the lookup loop. */
  lemma ExactMiss<P>(t: Table<P>, host: string, path: string)
    requires GetRoute(t, host, path).None?
    ensures FindVhost(t, host, path) == FirstRoute(t, Wildcards(Names.Split(host)), path)
  {
    assert Candidates(host)[1..] == Wildcards(Names.Split(host));
  }

  lemma WildcardStep<P>(t: Table<P>, labels: seq<string>, path: string)
    requires |labels| >= 3
    ensures var domain := Names.Join(labels[0 := "*"]);
            FirstRoute(t, Wildcards(labels), path)
            == if GetRoute(t, domain, path).Some? then GetRoute(t, domain, path)
               else FirstRoute(t, Wildcards(labels[1..]), path)
  {
    assert labels[0 := "*"][1..] == labels[1..];
    assert "*" + "." == "*.";
    var ws := Wildcards(labels);
    assert ws[1..] == Wildcards(labels[1..]);
  }

  // ---------------------------------------------------------------- HTTP reverse proxy

  /** Where the connections of a route come from: one proxy, or the members of a group. */
  datatype ConnSource = OneProxy(proxyName: string) | WholeGroup(groupIndex: string)

  datatype RouteConfig = RouteConfig(
    domain: string, location: string, rewriteHost: string, username: string, password: string,
    headers: map<string, string>, createConn: ConnSource)

  class HTTPReverseProxy {
    const vhostRouter: Routers<RouteConfig>

    constructor (router: Routers<RouteConfig>)
      ensures vhostRouter == router
    {
      vhostRouter := router;
    }

    method Register(cfg: RouteConfig) returns (ok: bool)
      modifies vhostRouter
      ensures ok <==> Lookup(old(vhostRouter.routerByDomain), cfg.domain, cfg.location).None?
      ensures vhostRouter.routerByDomain
           == AddRoute(old(vhostRouter.routerByDomain), Router(cfg.domain, cfg.location, cfg))
    {
      ok := vhostRouter.Add(cfg.domain, cfg.location, cfg);
    }

    method UnRegister(domain: string, location: string)
      modifies vhostRouter
      ensures vhostRouter.routerByDomain == DelRoute(old(vhostRouter.routerByDomain), domain, location)
    {
      vhostRouter.Del(domain, location);
    }

    method GetVhost(host: string, location: string) returns (vr: Option<Router<RouteConfig>>)
      ensures vr == FindVhost(vhostRouter.routerByDomain, host, location)
    {
      ghost var t := vhostRouter.routerByDomain;
      var domain := host;
      vr := vhostRouter.Get(domain, location);
      if vr.Some? { return; }
      var domainSplit := Names.Split(domain);
      ExactMiss(t, host, location);
      if |domainSplit| < 3 { return None; }
      while true
        invariant FindVhost(t, host, location)
               == FirstRoute(t, Wildcards(domainSplit), location)
        decreases |domainSplit|
      {
        if |domainSplit| < 3 { return None; }
        WildcardStep(t, domainSplit, location);
        ghost var tail := domainSplit[1..];
        domainSplit := domainSplit[0 := "*"];
        assert domainSplit[1..] == tail;
        domain := Names.Join(domainSplit);
        vr := vhostRouter.Get(domain, location);
        if vr.Some? { return; }
        domainSplit := domainSplit[1..];
      }
    }
  }

  // ---------------------------------------------------------------- connection muxer

  /** `accept` identifies the channel from which the listener takes its connections. */
  datatype Listener = Listener(
    accept: nat, name: string, location: string, rewriteHost: string, userName: string, passWord: string)

  class Muxer {
    const registryRouter: Routers<Listener>
    /** The number of accept channels made, and those that are open. */
    var made: nat
    var open: set<nat>

    constructor ()
      ensures fresh(registryRouter) && registryRouter.routerByDomain == map[] && made == 0 && open == {}
    {
      registryRouter := new Routers();
      made, open := 0, {};
    }

    method Listen(cfg: RouteConfig) returns (l: Option<Listener>)
      modifies this, registryRouter
      ensures l.Some? <==> Lookup(old(registryRouter.routerByDomain), cfg.domain, cfg.location).None?
      ensures l.None? ==> registryRouter.routerByDomain == old(registryRouter.routerByDomain)
      ensures l.Some? ==>
                && l.value == Listener(old(made), cfg.domain, cfg.location, cfg.rewriteHost, cfg.username, cfg.password)
                && registryRouter.routerByDomain
                   == AddRoute(old(registryRouter.routerByDomain), Router(cfg.domain, cfg.location, l.value))
      ensures made == old(made) + 1 && open == old(open) + {old(made)}
    {
      var ln := Listener(made, cfg.domain, cfg.location, cfg.rewriteHost, cfg.username, cfg.password);
      made, open := made + 1, open + {made};
      var ok := registryRouter.Add(cfg.domain, cfg.location, ln);
      l := if ok then Some(ln) else None;
    }

    /** Closing a listener. Closing its channel a second time panics, after the route of its place, if
        there is one by now, has been deleted again. */
    method CloseListener(l: Listener) returns (panics: bool)
      modifies this`open, registryRouter
      ensures registryRouter.routerByDomain == DelRoute(old(registryRouter.routerByDomain), l.name, l.location)
      ensures panics == (l.accept !in old(open)) && open == old(open) - {l.accept}
    {
      registryRouter.Del(l.name, l.location);
      panics := l.accept !in open;
      open := open - {l.accept};
    }

    method GetListener(host: string, path: string) returns (l: Option<Listener>)
      ensures l == match FindVhost(registryRouter.routerByDomain, host, path)
                   case Some(r) => Some(r.payload)
                   case None => None
    {
      ghost var t := registryRouter.routerByDomain;
      var name := host;
      var vr := registryRouter.Get(name, path);
      if vr.Some? { return Some(vr.value.payload); }
      var domainSplit := Names.Split(name);
      ExactMiss(t, host, path);
      if |domainSplit| < 3 { return None; }
      while true
        invariant FindVhost(t, host, path) == FirstRoute(t, Wildcards(domainSplit), path)
        decreases |domainSplit|
      {
        if |domainSplit| < 3 { return None; }
        WildcardStep(t, domainSplit, path);
        ghost var tail := domainSplit[1..];
        domainSplit := domainSplit[0 := "*"];
        assert domainSplit[1..] == tail;
        name := Names.Join(domainSplit);
        vr := registryRouter.Get(name, path);
        if vr.Some? { return Some(vr.value.payload); }
        domainSplit := domainSplit[1..];
      }
    }
  }

  /** Closing what was just listened on gives back every list of the table. */
  lemma ListenCloseRestores(t: Table<Listener>, l: Listener, domain: string)
    requires ValidTable(t) && Lookup(t, l.name, l.location).None?
    ensures List(DelRoute(AddRoute(t, Router(l.name, l.location, l)), l.name, l.location), domain)
         == List(t, domain)
  {
    var added := AddRoute(t, Router(l.name, l.location, l));
    AddRouteEffect(t, Router(l.name, l.location, l));
    DelRouteEffect(added, l.name, l.location);
    SameLookupsSameList(DelRoute(added, l.name, l.location), t, domain);
  }
}
