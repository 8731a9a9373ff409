/** The client's manager of proxies: reload, close, and the server's answers. */
module ProxyManagers {
  import opened Collections
  import opened ProxyWrappers

  /** The close messages for `names`, in order. */
  function Closes<C>(names: seq<string>): seq<Message<C>> {
    if names == [] then [] else Closes(names[..|names| - 1]) + [CloseProxy(names[|names| - 1])]
  }

  lemma ClosesNext<C>(sent: seq<Message<C>>, names: seq<string>, n: string)
    ensures sent + Closes(names + [n]) == sent + Closes(names) + [CloseProxy(n)]
  {
    assert (names + [n])[..|names|] == names;
  }

  /** What the channel holds after `names` were closed. */
  function SentCloses<C>(sent: seq<Message<C>>, open: bool, names: seq<string>): seq<Message<C>> {
    if open then sent + Closes(names) else sent
  }

  /** The list names exactly the members of `s`, each once. */
  predicate Lists(names: seq<string>, s: set<string>) {
    if names == [] then s == {}
    else
      var n := names[|names| - 1];
      n in s && Lists(names[..|names| - 1], s - {n})
  }

  lemma ListsNext(names: seq<string>, s: set<string>, n: string)
    requires Lists(names, s) && n !in s
    ensures Lists(names + [n], s + {n})
  {
    assert (names + [n])[..|names|] == names;
    assert s + {n} - {n} == s;
  }

  lemma {:induction false} ListsMeaning(names: seq<string>, s: set<string>)
    requires Lists(names, s)
    ensures forall n :: n in names <==> n in s
    ensures |names| == |s|
  {
    if names != [] {
      var n := names[|names| - 1];
      ListsMeaning(names[..|names| - 1], s - {n});
      assert names == names[..|names| - 1] + [n];
    }
  }

  /** Exactly the wrappers of `gone` said that they close, once each. */
  ghost predicate Announced<C>(before: seq<Message<C>>, after: seq<Message<C>>, open: bool,
                               names: seq<string>, gone: set<string>)
  {
    Lists(names, gone) && after == SentCloses(before, open, names)
  }

  lemma AnnouncedNext<C>(before: seq<Message<C>>, sent: seq<Message<C>>, after: seq<Message<C>>, open: bool,
                         names: seq<string>, gone: set<string>, n: string)
    requires Announced(before, sent, open, names, gone) && n !in gone
    requires after == if open then sent + [CloseProxy(n)] else sent
    ensures Announced(before, after, open, names + [n], gone + {n})
  {
    ClosesNext(before, names, n);
    ListsNext(names, gone, n);
  }

  /** The configuration of a managed name is unchanged. */
  predicate Kept<C>(was: map<string, Wrapper<C>>, cfgs: map<string, C>, same: (C, C) -> bool, n: string) {
    n in was && n in cfgs && same(was[n].cfg, cfgs[n])
  }

  /** Wrappers of different names are different objects. */
  lemma OwnObject<C>(was: map<string, Wrapper<C>>, n: string)
    requires n in was && forall m | m in was :: was[m].name == m
    ensures forall m | m in was && m != n :: was[m] != was[n]
  {
  }

  class Manager<C(==)> {
    const sendCh: SendChannel<C>
    const same: (C, C) -> bool
    const healthCheck: C -> bool
    var proxies: map<string, Wrapper<C>>

    constructor (sendCh: SendChannel<C>, same: (C, C) -> bool, healthCheck: C -> bool)
      ensures Valid() && proxies == map[] && this.sendCh == sendCh
      ensures this.same == same && this.healthCheck == healthCheck
    {
      this.sendCh, this.same, this.healthCheck := sendCh, same, healthCheck;
      proxies := map[];
    }

    /** Every managed wrapper has its name and has not been stopped. */
    ghost predicate Valid()
      reads this, proxies.Values
    {
      forall n | n in proxies ::
        proxies[n].name == n && proxies[n].handler == sendCh && !proxies[n].closeChClosed
    }

    /** A wrapper that was stopped. */
    ghost predicate IsStopped(w: Wrapper<C>)
      reads w
    {
      w.closeChClosed && w.pxyClosed && w.phase.Closed?
    }

    /** A wrapper as a reload makes it. */
    ghost predicate IsNew(w: Wrapper<C>, name: string, cfg: C)
      reads w
    {
      w.name == name && w.cfg == cfg && w.handler == sendCh && w.Now() == FRESH && !w.closeChClosed
    }

    method StartProxy(name: string, addr: string, respErr: string, runErr: string, now: int) returns (failed: bool)
      requires Valid()
      modifies if name in proxies then {proxies[name]} else {}, sendCh`sent
      ensures Valid()
      ensures name !in proxies ==> failed && sendCh.sent == old(sendCh.sent)
      ensures name in proxies ==>
                var o := Respond(old(proxies[name].Now()), addr, respErr, runErr, now);
                && proxies[name].Now() == o.status
                && sendCh.sent == SentAfter(old(sendCh.sent), sendCh.open, name, proxies[name].cfg, o.msg)
                && failed == !(old(proxies[name].phase).WaitStart? && proxies[name].phase.Running?)
    {
      if name !in proxies { return true; }
      failed := proxies[name].SetRunningStatus(addr, respErr, runErr, now);
    }

    method StopOne(w: Wrapper<C>)
      requires !w.closeChClosed && w.handler == sendCh
      modifies w, sendCh`sent
      ensures IsStopped(w)
      ensures sendCh.sent == if sendCh.open then old(sendCh.sent) + [CloseProxy(w.name)] else old(sendCh.sent)
    {
      w.Stop();
    }

    /** Stops every managed wrapper, once, with one close message for each. */
    method Close() returns (stopped: seq<string>)
      requires Valid()
      modifies this`proxies, proxies.Values, sendCh`sent
      ensures Valid() && proxies == map[]
      ensures forall n | n in old(proxies) :: IsStopped(old(proxies)[n])
      ensures Announced(old(sendCh.sent), sendCh.sent, sendCh.open, stopped, old(proxies).Keys)
    {
      var gone: set<string> := {};
      stopped := [];
      while gone != proxies.Keys
        invariant proxies == old(proxies) && gone <= proxies.Keys
        invariant forall n | n in proxies :: proxies[n].name == n && proxies[n].handler == sendCh
        invariant forall n | n in proxies :: if n in gone then IsStopped(proxies[n]) else !proxies[n].closeChClosed
        invariant Announced(old(sendCh.sent), sendCh.sent, sendCh.open, stopped, gone)
        decreases proxies.Keys - gone
      {
        var n :| n in proxies && n !in gone;
        ghost var sent := sendCh.sent;
        StopOne(proxies[n]);
        AnnouncedNext(old(sendCh.sent), sent, sendCh.sent, sendCh.open, stopped, gone, n);
        stopped, gone := stopped + [n], gone + {n};
      }
      proxies := map[];
    }

    /** One name in the first loop of a reload. */
    method Review(n: string, cfgs: map<string, C>) returns (del: bool)
      requires n in proxies && !proxies[n].closeChClosed && proxies[n].handler == sendCh
      modifies this`proxies, if Kept(proxies, cfgs, same, n) then {} else {proxies[n]}, sendCh`sent
      ensures del == !Kept(old(proxies), cfgs, same, n)
      ensures del ==> proxies == old(proxies) - {n} && IsStopped(old(proxies)[n])
      ensures !del ==> proxies == old(proxies)
      ensures sendCh.sent == if del && sendCh.open then old(sendCh.sent) + [CloseProxy(old(proxies)[n].name)]
                             else old(sendCh.sent)
    {
      var w := proxies[n];
      del := n !in cfgs || !same(w.cfg, cfgs[n]);
      if del {
        proxies := proxies - {n};
        StopOne(w);
      }
    }

    /** The wrappers of `gone` have left the map of managed ones and are stopped; the others are not. */
    ghost predicate Removed(was: map<string, Wrapper<C>>, gone: set<string>)
      reads this, was.Values
    {
      && proxies == was - gone && gone <= was.Keys
      && (forall n | n in was :: was[n].name == n)
      && (forall n | n in was :: if n in gone then IsStopped(was[n]) else !was[n].closeChClosed)
    }

    /** The wrappers whose configuration is gone or changed. */
    ghost function Changed(was: map<string, Wrapper<C>>, cfgs: map<string, C>): set<Wrapper<C>> {
      set n | n in was && !Kept(was, cfgs, same, n) :: was[n]
    }

    /** One turn of the first loop of a reload. */
    method ReviewNext(n: string, cfgs: map<string, C>, ghost was: map<string, Wrapper<C>>, names: seq<string>,
                      ghost gone: set<string>, ghost before: seq<Message<C>>)
      returns (names': seq<string>, ghost gone': set<string>)
      requires Removed(was, gone) && n in was && n !in gone && was[n].handler == sendCh
      requires Announced(before, sendCh.sent, sendCh.open, names, gone)
      modifies this`proxies, if Kept(was, cfgs, same, n) then {} else {was[n]}, sendCh`sent
      ensures Removed(was, gone')
      ensures gone' == if Kept(was, cfgs, same, n) then gone else gone + {n}
      ensures Announced(before, sendCh.sent, sendCh.open, names', gone')
    {
      names', gone' := names, gone;
      ghost var sent := sendCh.sent;
      OwnObject(was, n);
      var del := Review(n, cfgs);
      if del {
        AnnouncedNext(before, sent, sendCh.sent, sendCh.open, names, gone, n);
        assert was - gone - {n} == was - (gone + {n});
        names', gone' := names + [n], gone + {n};
      }
    }

    /** The loop over the wrappers `was` that were managed at first. */
    method ReviewAll(cfgs: map<string, C>, was: map<string, Wrapper<C>>)
      returns (delPxyNames: seq<string>, ghost gone: set<string>)
      requires Valid() && proxies == was
      modifies this`proxies, Changed(was, cfgs), sendCh`sent
      ensures Removed(was, gone)
      ensures forall n | n in was :: n in gone <==> !Kept(was, cfgs, same, n)
      ensures Announced(old(sendCh.sent), sendCh.sent, sendCh.open, delPxyNames, gone)
    {
      var todo := was.Keys;
      delPxyNames, gone := [], {};
      assert was - {} == was;
      while todo != {}
        invariant todo <= was.Keys && todo !! gone && Removed(was, gone)
        invariant forall n | n in was && n !in todo :: n in gone <==> !Kept(was, cfgs, same, n)
        invariant Announced(old(sendCh.sent), sendCh.sent, sendCh.open, delPxyNames, gone)
        decreases |todo|
      {
        var n := AnyOf(todo);
        delPxyNames, gone := ReviewNext(n, cfgs, was, delPxyNames, gone, old(sendCh.sent));
        todo := todo - {n};
      }
    }

    /** The first loop of a reload: names that are gone or changed are taken out and stopped. */
    method RemoveChanged(cfgs: map<string, C>) returns (delPxyNames: seq<string>)
      requires Valid()
      modifies this`proxies, proxies.Values, sendCh`sent
      ensures forall n :: n in proxies <==> Kept(old(proxies), cfgs, same, n)
      ensures forall n | n in proxies && n in old(proxies) ::
                proxies[n] == old(proxies)[n] && unchanged(old(proxies)[n])
      ensures forall n | n in old(proxies) && n !in proxies :: IsStopped(old(proxies)[n])
      ensures Announced(old(sendCh.sent), sendCh.sent, sendCh.open, delPxyNames, old(proxies).Keys - proxies.Keys)
    {
      var was := proxies;
      ghost var gone;
      delPxyNames, gone := ReviewAll(cfgs, was);
      assert gone == was.Keys - proxies.Keys;
    }

    /** The second loop of a reload: names without a wrapper get a new one. */
    method AddMissing(cfgs: map<string, C>)
      requires Valid() && forall n | n in proxies :: n in cfgs
      modifies this`proxies
      ensures forall n | n in proxies :: n in cfgs
      ensures forall n | n in cfgs :: n in proxies
      ensures forall n | n in old(proxies) :: n in proxies && proxies[n] == old(proxies)[n]
      ensures forall n | n in proxies && n !in old(proxies) :: fresh(proxies[n]) && IsNew(proxies[n], n, cfgs[n])
    {
      ghost var was := proxies;
      var todo := cfgs.Keys;
      while todo != {}
        invariant forall n | n in proxies :: n in cfgs
        invariant forall n | n in todo :: n in cfgs
        invariant forall n | n in cfgs :: n in todo || n in proxies
        invariant forall n | n in was :: n in proxies && proxies[n] == was[n]
        invariant forall n | n in proxies && n !in was :: fresh(proxies[n]) && IsNew(proxies[n], n, cfgs[n])
        decreases |todo|
      {
        var n := AnyOf(todo);
        todo := todo - {n};
        if n !in proxies {
          var w := new Wrapper(n, cfgs[n], healthCheck(cfgs[n]), sendCh);
          proxies := proxies[n := w];
        }
      }
    }

    /** After a reload the managed names are those of the configuration; unchanged names keep their
        wrapper untouched, all others have a new one; the wrappers that went are stopped, with one
        close message each and no other message. */
    method Reload(cfgs: map<string, C>) returns (delPxyNames: seq<string>)
      requires Valid()
      modifies this`proxies, proxies.Values, sendCh`sent
      ensures Valid() && proxies.Keys == cfgs.Keys
      ensures forall n | n in old(proxies) && n in cfgs && same(old(proxies)[n].cfg, cfgs[n]) ::
                proxies[n] == old(proxies)[n] && unchanged(proxies[n])
      ensures forall n | n in cfgs && !(n in old(proxies) && same(old(proxies)[n].cfg, cfgs[n])) ::
                fresh(proxies[n]) && IsNew(proxies[n], n, cfgs[n])
      ensures forall n | n in old(proxies) && !(n in cfgs && same(old(proxies)[n].cfg, cfgs[n])) ::
                IsStopped(old(proxies)[n])
      ensures Announced(old(sendCh.sent), sendCh.sent, sendCh.open, delPxyNames,
                        set n | n in old(proxies) && !Kept(old(proxies), cfgs, same, n))
    {
      delPxyNames := RemoveChanged(cfgs);
      ghost var kept := proxies.Keys;
      AddMissing(cfgs);
      assert (set n | n in old(proxies) && !Kept(old(proxies), cfgs, same, n)) == old(proxies).Keys - kept;
    }
  }
}
