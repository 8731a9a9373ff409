/** The objects behind the control protocol, as they update themselves: the manager of controls, the
    table of all proxies, and a control with its proxies, its port counter and its pool. */
module Controls {
  import opened Options
  import opened ControlProtocol

  /** The table of all proxies: for each name the number of the control whose proxy has it. */
  class ProxyManager {
    var pxys: map<string, nat>

    constructor ()
      ensures pxys == map[]
    {
      pxys := map[];
    }

    method Add(name: string, owner: nat) returns (ok: bool)
      modifies this
      ensures ok == (name !in old(pxys))
      ensures pxys == if ok then old(pxys)[name := owner] else old(pxys)
    {
      if name in pxys { return false; }
      pxys := pxys[name := owner];
      return true;
    }

    method Del(name: string)
      modifies this
      ensures pxys == old(pxys) - {name}
    {
      pxys := pxys - {name};
    }

    method GetByName(name: string) returns (owner: Option<nat>)
      ensures owner == if name in pxys then Some(pxys[name]) else None
    {
      if name in pxys { return Some(pxys[name]); }
      return None;
    }
  }

  // ---------------------------------------------------------------- what the methods mean as steps

  /** `es` lead the manager from `r` to `r'`, each enabled when it is taken. */
  ghost predicate Leads(r: Registry, limit: nat, es: seq<ManagerEvent>, r': Registry)
    decreases |es|
  {
    if es == [] then r' == r
    else ManagerEnabled(r, es[0]) && Leads(ManagerNext(r, limit, es[0]), limit, es[1..], r')
  }

  function RegisterEvents(p: Proxy, over: bool, runs: bool, clash: bool): seq<ManagerEvent> {
    if over then [NewProxy(p)]
    else if !runs then [NewProxy(p), RunFails]
    else if clash then [NewProxy(p), RunSucceeds, AddClashes]
    else [NewProxy(p), RunSucceeds, AddToTable, Enter]
  }

  function CloseEvents(name: string, found: bool): seq<ManagerEvent> {
    if found then [CloseMessage(name), DropFromTable, DropEntry] else [CloseMessage(name)]
  }

  lemma RegisterLeads(r: Registry, limit: nat, p: Proxy, runs: bool, clash: bool)
    requires r.mgr.Idle?
    ensures var over := OverLimit(r, limit, p);
            Leads(r, limit, RegisterEvents(p, over, runs, clash),
                  if over || !runs || clash then r
                  else Registry(Idle, r.proxies[p.name := p], r.portsUsed + Charge(limit, p.ports)))
  {
    var es := RegisterEvents(p, OverLimit(r, limit, p), runs, clash);
    if !OverLimit(r, limit, p) {
      var r1 := ManagerNext(r, limit, NewProxy(p));
      if !runs {
        assert es[1..] == [RunFails];
      } else {
        var r2 := ManagerNext(r1, limit, RunSucceeds);
        if clash {
          assert es[1..] == [RunSucceeds, AddClashes] && es[1..][1..] == [AddClashes];
          assert ManagerNext(r2, limit, AddClashes) == r;
          assert Leads(r2, limit, [AddClashes], r);
        } else {
          assert es[1..] == [RunSucceeds, AddToTable, Enter] && es[1..][1..] == [AddToTable, Enter];
          var r3 := ManagerNext(r2, limit, AddToTable);
          assert [AddToTable, Enter][1..] == [Enter];
          assert Leads(r3, limit, [Enter], ManagerNext(r3, limit, Enter));
        }
      }
    }
  }

  lemma CloseLeads(r: Registry, limit: nat, name: string)
    requires r.mgr.Idle? && Entries(r)
    ensures Leads(r, limit, CloseEvents(name, name in r.proxies),
                  if name !in r.proxies then r
                  else Registry(Idle, r.proxies - {name}, r.portsUsed - Charge(limit, r.proxies[name].ports)))
  {
    if name in r.proxies {
      var es := CloseEvents(name, true);
      var r1 := ManagerNext(r, limit, CloseMessage(name));
      assert es[1..] == [DropFromTable, DropEntry];
      var r2 := ManagerNext(r1, limit, DropFromTable);
      assert [DropFromTable, DropEntry][1..] == [DropEntry];
      assert Leads(r2, limit, [DropEntry], ManagerNext(r2, limit, DropEntry));
    }
  }

  // ---------------------------------------------------------------- a control

  datatype ProxyCall = RunIt | CloseIt

  datatype RegisterError = BadConfig | UnknownType | TooManyPorts | RunFailed | NameInUse

  /** Why a proxy is not registered, the first reason in the order of the checks. */
  function RegisterErr(valid: bool, known: bool, over: bool, runs: bool, clash: bool): Option<RegisterError> {
    if !valid then Some(BadConfig)
    else if !known then Some(UnknownType)
    else if over then Some(TooManyPorts)
    else if !runs then Some(RunFailed)
    else if clash then Some(NameInUse)
    else None
  }

  /** A connection that is offered is taken in, refused because the pool is full, or lost: the send
      on the closed channel panics, and the recovered panic leaves no error. */
  datatype Offer = TakenIn | Full | Lost

  /** What comes first while a user connection waits for a work connection. */
  datatype Wait = Arrives(conn: nat) | Closes | TimesOut

  datatype WorkConn = Got(conn: nat) | CtlClosed | SendFailed | TimedOut

  class Control {
    const id: nat
    const limit: nat
    const poolCount: int
    const pxyManager: ProxyManager
    /** The run id of the login; `runID` forgets it when the control is replaced. */
    const loginRunID: string
    var runID: string
    var stopRequested: bool
    var proxies: map<string, Proxy>
    var portsUsedNum: int
    var workConnCh: seq<nat>
    var poolClosed: bool
    var started: bool
    var finished: bool
    ghost var handed: seq<nat>
    ghost var drained: seq<nat>
    ghost var accepted: multiset<nat>

    constructor (id: nat, runID: string, limit: nat, poolCount: int, pxyManager: ProxyManager)
      requires poolCount + 10 >= 0
      ensures this.id == id && this.limit == limit && this.poolCount == poolCount
      ensures this.pxyManager == pxyManager && this.runID == loginRunID == runID
      ensures !stopRequested && !poolClosed && !started && !finished
      ensures Reg() == NO_PROXIES && Conns() == EmptyPool(poolCount)
    {
      this.id, this.limit, this.poolCount, this.pxyManager := id, limit, poolCount, pxyManager;
      this.runID, loginRunID, stopRequested, poolClosed := runID, runID, false, false;
      started, finished := false, false;
      proxies, portsUsedNum, workConnCh := map[], 0, [];
      handed, drained, accepted := [], [], multiset{};
    }

    ghost function Reg(): Registry
      reads this
    {
      Registry(Idle, proxies, portsUsedNum)
    }

    ghost function Conns(): Pool
      reads this
    {
      Pool(poolCount, workConnCh, handed, drained, accepted)
    }

    /** The counter is right, and the table has every proxy of this control as its own. */
    ghost predicate Valid()
      reads this, pxyManager
    {
      && Entries(Reg()) && Quota(Reg(), limit)
      && forall n | n in proxies :: n in pxyManager.pxys && pxyManager.pxys[n] == id
    }

    /** The client is asked for as many connections as the pool is to have. */
    method Start() returns (asked: nat)
      requires !started
      modifies this`started
      ensures started && asked == if poolCount > 0 then poolCount else 0
    {
      started := true;
      asked := 0;
      while asked < poolCount
        invariant asked == 0 || asked <= poolCount
        invariant started
      {
        asked := asked + 1;
      }
    }

    method Replaced()
      modifies this`runID, this`stopRequested
      ensures runID == "" && stopRequested
    {
      runID := "";
      stopRequested := true;
    }

    /** `valid` and `known` are what the checks of the message's configuration and of the proxy's type
        say, `runs` whether running the proxy succeeds, `addr` the address that running it answers.
        A proxy is registered exactly when nothing is wrong with it, the limit admits it, it runs, and
        its name is free; otherwise nothing changes and a proxy that was running is closed again. */
    method RegisterProxy(p: Proxy, valid: bool, known: bool, runs: bool, addr: string)
      returns (remoteAddr: string, err: Option<RegisterError>, calls: seq<ProxyCall>)
      requires Valid()
      modifies this`proxies, this`portsUsedNum, pxyManager
      ensures Valid()
      ensures var over, clash := limit > 0 && Sum(old(proxies)) + p.ports > limit, p.name in old(pxyManager.pxys);
              && (err == Some(BadConfig) <==> !valid)
              && (err == Some(UnknownType) <==> valid && !known)
              && (err == Some(TooManyPorts) <==> valid && known && over)
              && (err == Some(RunFailed) <==> valid && known && !over && !runs)
              && (err == Some(NameInUse) <==> valid && known && !over && runs && clash)
              && remoteAddr == (if valid && known && !over then addr else "")
              && calls == (if !valid || !known || over then [] else if runs && clash then [RunIt, CloseIt] else [RunIt])
              && Leads(old(Reg()), limit, if valid && known then RegisterEvents(p, over, runs, clash) else [], Reg())
      ensures pxyManager.pxys == if err.None? then old(pxyManager.pxys)[p.name := id] else old(pxyManager.pxys)
      ensures proxies == if err.None? then old(proxies)[p.name := p] else old(proxies)
      ensures limit > 0 ==> portsUsedNum == Sum(proxies) <= limit
    {
      AdmittedExactly(Reg(), limit, p);
      remoteAddr, calls := "", [];
      if !valid { return remoteAddr, Some(BadConfig), calls; }
      if !known { return remoteAddr, Some(UnknownType), calls; }
      remoteAddr, err, calls := Admit(p, runs, addr);
    }

    /** The rest of a registration, once the proxy has been made. */
    method Admit(p: Proxy, runs: bool, addr: string)
      returns (remoteAddr: string, err: Option<RegisterError>, calls: seq<ProxyCall>)
      requires Valid()
      modifies this`proxies, this`portsUsedNum, pxyManager
      ensures Valid()
      ensures var over, clash := OverLimit(old(Reg()), limit, p), p.name in old(pxyManager.pxys);
              && err == RegisterErr(true, true, over, runs, clash)
              && remoteAddr == (if over then "" else addr)
              && calls == (if over then [] else if runs && clash then [RunIt, CloseIt] else [RunIt])
              && Leads(old(Reg()), limit, RegisterEvents(p, over, runs, clash), Reg())
      ensures pxyManager.pxys == if err.None? then old(pxyManager.pxys)[p.name := id] else old(pxyManager.pxys)
      ensures proxies == if err.None? then old(proxies)[p.name := p] else old(proxies)
      ensures portsUsedNum == old(portsUsedNum) + (if err.None? then Charge(limit, p.ports) else 0)
    {
      ghost var before := Reg();
      RegisterLeads(before, limit, p, runs, p.name in pxyManager.pxys);
      if !OverLimit(before, limit, p) && p.name !in proxies { RegisterQuota(before, limit, p); }
      remoteAddr, calls := "", [];
      if limit > 0 {
        if portsUsedNum + p.ports > limit { return remoteAddr, Some(TooManyPorts), calls; }
        portsUsedNum := portsUsedNum + p.ports;
      }
      remoteAddr, calls := addr, calls + [RunIt];
      if !runs {
        if limit > 0 { portsUsedNum := portsUsedNum - p.ports; }
        return remoteAddr, Some(RunFailed), calls;
      }
      var ok := pxyManager.Add(p.name, id);
      if !ok {
        calls := calls + [CloseIt];
        if limit > 0 { portsUsedNum := portsUsedNum - p.ports; }
        return remoteAddr, Some(NameInUse), calls;
      }
      proxies := proxies[p.name := p];
      err := None;
    }

    /** Closing a proxy of this control takes it out of both maps and returns its ports; a name that
        is not this control's is left alone, whoever has it. */
    method CloseProxy(name: string) returns (calls: seq<ProxyCall>)
      requires Valid()
      modifies this`proxies, this`portsUsedNum, pxyManager
      ensures Valid()
      ensures var found := name in old(proxies);
              && calls == (if found then [CloseIt] else [])
              && Leads(old(Reg()), limit, CloseEvents(name, found), Reg())
              && pxyManager.pxys == (if found then old(pxyManager.pxys) - {name} else old(pxyManager.pxys))
      ensures proxies == old(proxies) - {name}
    {
      ghost var before := Reg();
      CloseLeads(before, limit, name);
      if name !in proxies { return []; }
      SumWithout(proxies, name);
      var p := proxies[name];
      if limit > 0 { portsUsedNum := portsUsedNum - p.ports; }
      calls := [CloseIt];
      pxyManager.Del(p.name);
      proxies := proxies - {name};
    }

    method RegisterWorkConn(conn: nat) returns (r: Offer)
      requires conn !in accepted
      modifies this`workConnCh, this`accepted
      ensures Conns() == PoolNext(old(Conns()), Put(conn), !poolClosed)
      ensures r == if poolClosed then Lost else if |old(workConnCh)| < poolCount + 10 then TakenIn else Full
      ensures workConnCh == if r.TakenIn? then old(workConnCh) + [conn] else old(workConnCh)
    {
      if poolClosed { return Lost; }
      if |workConnCh| >= poolCount + 10 { return Full; }
      workConnCh := workConnCh + [conn];
      accepted := accepted + multiset{conn};
      return TakenIn;
    }

    /** Takes a connection from the pool, or asks the client for one and waits; `sendOpen` says
        whether the message channel is open, `wait` what ends the waiting. `asked` counts the requests
        for connections: one to replace each that is handed out, and one before each waiting. */
    method GetWorkConn(sendOpen: bool, wait: Wait) returns (r: WorkConn, asked: nat)
      requires wait.Arrives? ==> wait.conn !in accepted && !poolClosed
      modifies this`workConnCh, this`handed, this`accepted
      ensures old(workConnCh) != [] ==>
                r == Got(old(workConnCh)[0]) && Conns() == PoolNext(old(Conns()), Take, !poolClosed)
      ensures old(workConnCh) == [] && !poolClosed && sendOpen && wait.Arrives? ==>
                r == Got(wait.conn) && Conns() == PoolNext(old(Conns()), Pass(wait.conn), true)
      ensures !r.Got? ==> Conns() == old(Conns()) && old(workConnCh) == []
      ensures old(workConnCh) == [] ==>
                r == (if poolClosed then CtlClosed
                      else if !sendOpen then SendFailed
                      else match wait
                           case Arrives(conn) => Got(conn)
                           case Closes => CtlClosed
                           case TimesOut => TimedOut)
      ensures asked == if poolClosed && old(workConnCh) == [] then 0
                       else if !sendOpen then 0
                       else (if old(workConnCh) == [] then 1 else 0) + (if r.Got? then 1 else 0)
    {
      asked := 0;
      if workConnCh != [] {
        r := Got(workConnCh[0]);
        handed, workConnCh := handed + [workConnCh[0]], workConnCh[1..];
      } else if poolClosed {
        return CtlClosed, asked;
      } else {
        if !sendOpen { return SendFailed, asked; }
        asked := asked + 1;
        match wait
        case Arrives(conn) =>
          accepted, handed := accepted + multiset{conn}, handed + [conn];
          r := Got(conn);
        case Closes => return CtlClosed, asked;
        case TimesOut => return TimedOut, asked;
      }
      if sendOpen { asked := asked + 1; }
    }

    /** The pool closes, and every connection left in it is closed, in order. */
    method DrainPool() returns (closed: seq<nat>)
      requires !poolClosed
      modifies this`workConnCh, this`poolClosed, this`drained
      ensures poolClosed && workConnCh == []
      ensures closed == old(workConnCh) && drained == old(drained) + closed
    {
      poolClosed := true;
      closed := [];
      while workConnCh != []
        invariant closed + workConnCh == old(workConnCh) && drained == old(drained) + closed
        invariant poolClosed
        decreases |workConnCh|
      {
        closed, drained := closed + [workConnCh[0]], drained + [workConnCh[0]];
        workConnCh := workConnCh[1..];
      }
    }

    /** Every proxy of this control is closed and leaves the table; other names stay. */
    method CloseProxies() returns (closed: set<string>)
      requires Entries(Reg())
      modifies pxyManager
      ensures pxyManager.pxys == old(pxyManager.pxys) - proxies.Keys && closed == proxies.Keys
    {
      closed := {};
      while closed != proxies.Keys
        invariant closed <= proxies.Keys && pxyManager.pxys == old(pxyManager.pxys) - closed
        decreases proxies.Keys - closed
      {
        var n :| n in proxies && n !in closed;
        pxyManager.Del(proxies[n].name);
        MinusTwice(old(pxyManager.pxys), closed, n);
        closed := closed + {n};
      }
    }

    /** The end of the stopper: no connection of the pool is lost, every proxy is closed, and exactly
        the names of this control leave the table of all proxies. */
    method Stop() returns (closed: seq<nat>, closedProxies: set<string>)
      requires Valid() && started && stopRequested && !poolClosed
      modifies this`workConnCh, this`poolClosed, this`drained, this`finished, pxyManager
      ensures finished && poolClosed && workConnCh == [] && closed == old(workConnCh)
      ensures PoolOk(old(Conns())) ==> PoolOk(Conns())
      ensures pxyManager.pxys == old(pxyManager.pxys) - proxies.Keys && closedProxies == proxies.Keys
    {
      closed := DrainPool();
      closedProxies := CloseProxies();
      finished := true;
    }
  }

  lemma MinusTwice<K, V>(m: map<K, V>, a: set<K>, k: K)
    ensures m - a - {k} == m - (a + {k})
  {
  }

  /** A registered proxy keeps the counter within the limit. */
  lemma RegisterQuota(r: Registry, limit: nat, p: Proxy)
    requires r.mgr.Idle? && Quota(r, limit) && p.name !in r.proxies && !OverLimit(r, limit, p)
    ensures Quota(Registry(Idle, r.proxies[p.name := p], r.portsUsed + Charge(limit, p.ports)), limit)
  {
    SumWith(r.proxies, p.name, p);
  }

  // ---------------------------------------------------------------- the controls by run id

  class ControlManager {
    var ctlsByRunID: map<string, Control>

    constructor ()
      ensures ctlsByRunID == map[]
    {
      ctlsByRunID := map[];
    }

    /** The map as the step system has it: numbers instead of controls. */
    ghost function Numbers(): map<string, nat>
      reads this
    {
      map r | r in ctlsByRunID :: ctlsByRunID[r].id
    }

    /** A control that is replaced is told to stop and forgets its run id. */
    method Add(runID: string, ctl: Control) returns (oldCtl: Option<Control>)
      requires runID in ctlsByRunID ==> ctlsByRunID[runID] != ctl
      modifies this, if runID in ctlsByRunID then {ctlsByRunID[runID]} else {}
      ensures ctlsByRunID == old(ctlsByRunID)[runID := ctl] && Numbers() == old(Numbers())[runID := ctl.id]
      ensures oldCtl == if runID in old(ctlsByRunID) then Some(old(ctlsByRunID)[runID]) else None
      ensures oldCtl.Some? ==> oldCtl.value.stopRequested && oldCtl.value.runID == ""
      ensures oldCtl.Some? ==> oldCtl.value.Reg() == old(oldCtl.value.Reg())
    {
      oldCtl := None;
      if runID in ctlsByRunID {
        var c := ctlsByRunID[runID];
        c.Replaced();
        oldCtl := Some(c);
      }
      ctlsByRunID := ctlsByRunID[runID := ctl];
    }

    /** Only the control that is in the map takes its entry out. */
    method Del(runID: string, ctl: Control)
      requires forall r | r in ctlsByRunID :: ctlsByRunID[r].id == ctl.id ==> ctlsByRunID[r] == ctl
      modifies this
      ensures Numbers() == if runID in old(Numbers()) && old(Numbers())[runID] == ctl.id
                           then old(Numbers()) - {runID} else old(Numbers())
      ensures ctlsByRunID == if runID in old(ctlsByRunID) && old(ctlsByRunID)[runID] == ctl
                             then old(ctlsByRunID) - {runID} else old(ctlsByRunID)
    {
      if runID in ctlsByRunID && ctlsByRunID[runID] == ctl {
        ctlsByRunID := ctlsByRunID - {runID};
      }
    }

    method GetByID(runID: string) returns (ctl: Option<Control>)
      ensures ctl == if runID in ctlsByRunID then Some(ctlsByRunID[runID]) else None
    {
      if runID in ctlsByRunID { return Some(ctlsByRunID[runID]); }
      return None;
    }
  }

  // ---------------------------------------------------------------- registering a login

  datatype Login = Login(runID: string, poolCount: int)

  datatype LoginError = NoRandomId | WrongVersion | NotVerified

  /** What became of a login. Making a channel with a negative number of places panics. */
  datatype Registered =
    | Refused(error: LoginError) | PoolPanic | Added(runID: string, ctl: Control, replaced: Option<Control>)

  class Service {
    const ctlManager: ControlManager
    const pxyManager: ProxyManager
    const maxPoolCount: int
    const maxPortsPerClient: nat

    constructor (maxPoolCount: int, maxPortsPerClient: nat)
      ensures this.maxPoolCount == maxPoolCount && this.maxPortsPerClient == maxPortsPerClient
      ensures ctlManager.ctlsByRunID == map[] && pxyManager.pxys == map[]
    {
      this.maxPoolCount, this.maxPortsPerClient := maxPoolCount, maxPortsPerClient;
      ctlManager := new ControlManager();
      pxyManager := new ProxyManager();
    }

    function Capped(poolCount: int): int {
      if poolCount > maxPoolCount then maxPoolCount else poolCount
    }

    /** A login up to the waiting. `random` is the run id made for a client that sends none, if one
        could be made; `compatible` and `verified` are what the checks of version and credentials say;
        `id` is the number of the new control. A refused login changes nothing; one that asks for a pool
        of a negative number of places, by a pool count below -10, passes the checks and panics. */
    method AddControl(login: Login, random: Option<string>, compatible: bool, verified: bool, id: nat)
      returns (r: Registered)
      modifies ctlManager
      modifies var runID := if login.runID == "" && random.Some? then random.value else login.runID;
               if runID in ctlManager.ctlsByRunID then {ctlManager.ctlsByRunID[runID]} else {}
      ensures var was := old(ctlManager.ctlsByRunID);
              match r
              case Refused(e) =>
                && ctlManager.ctlsByRunID == was
                && (e == if login.runID == "" && random.None? then NoRandomId
                         else if !compatible then WrongVersion else NotVerified)
                && (forall k | k in was :: unchanged(was[k]))
              case PoolPanic => ctlManager.ctlsByRunID == was && forall k | k in was :: unchanged(was[k])
              case Added(runID, ctl, replaced) =>
                && runID == (if login.runID == "" && random.Some? then random.value else login.runID)
                && fresh(ctl) && ctl.id == id && ctl.loginRunID == runID && !ctl.started && !ctl.finished
                && ctl.pxyManager == pxyManager && ctl.limit == maxPortsPerClient
                && (ctl.poolCount == login.poolCount || ctl.poolCount == maxPoolCount)
                && ctl.poolCount <= login.poolCount && ctl.poolCount <= maxPoolCount
                && ctl.Reg() == NO_PROXIES && ctl.Conns() == EmptyPool(ctl.poolCount)
                && ctlManager.ctlsByRunID == was[runID := ctl]
                && replaced == (if runID in was then Some(was[runID]) else None)
                && (replaced.Some? ==> replaced.value.stopRequested && replaced.value.runID == "")
      ensures !r.Refused? <==> (login.runID == "" ==> random.Some?) && compatible && verified
      ensures !r.Refused? ==> (r.PoolPanic? <==> login.poolCount < -10 || maxPoolCount < -10)
    {
      var runID := login.runID;
      if runID == "" {
        if random.None? { return Refused(NoRandomId); }
        runID := random.value;
      }
      if !compatible { return Refused(WrongVersion); }
      if !verified { return Refused(NotVerified); }
      if Capped(login.poolCount) + 10 < 0 { return PoolPanic; }
      var ctl := new Control(id, runID, maxPortsPerClient, Capped(login.poolCount), pxyManager);
      var replaced := ctlManager.Add(runID, ctl);
      return Added(runID, ctl, replaced);
    }

    /** The rest of a login, once the control that was replaced is done. */
    method StartControl(ctl: Control, replaced: Option<Control>) returns (asked: nat)
      requires !ctl.started && (replaced.Some? ==> replaced.value.finished)
      modifies ctl`started
      ensures ctl.started && asked == if ctl.poolCount > 0 then ctl.poolCount else 0
    {
      asked := ctl.Start();
    }

    /** When a control is done its entry goes, unless a later control has taken its place. */
    method ForgetControl(ctl: Control)
      requires ctl.finished
      requires forall r | r in ctlManager.ctlsByRunID ::
                 ctlManager.ctlsByRunID[r].id == ctl.id ==> ctlManager.ctlsByRunID[r] == ctl
      modifies ctlManager
      ensures var was, r := old(ctlManager.ctlsByRunID), ctl.loginRunID;
              ctlManager.ctlsByRunID == if r in was && was[r] == ctl then was - {r} else was
    {
      ctlManager.Del(ctl.loginRunID, ctl);
    }
  }
}
