/** The client's proxies as a step system: the workers of all wrappers ever created and the answers of
    the server interleave in any way with the loops of reload and close. */
module ClientRuns {
  import opened Options
  import opened ProxyWrappers

  /** A wrapper ever created. `seen` is the latest time its own worker has read; a later pass does
      not read an earlier time, nor does the answer to the message of that pass. */
  datatype Wrap<C> = Wrap(name: string, cfg: C, status: Status, seen: int, stops: nat)

  /** A message, the wrapper it came from, and when. */
  datatype Entry = Entry(w: nat, kind: Kind, at: int)

  /** What holds the manager's lock. `before` is what was managed when the reload began. */
  datatype Op<C> =
    | Free
    | Removing(cfgs: map<string, C>, before: map<string, nat>, todo: set<string>)
    | Filling(cfgs: map<string, C>, before: map<string, nat>, todo: set<string>)
    | ClosingAll(todo: set<string>)

  /** `log` are all messages the wrappers gave to the manager, `sent` those that got into the channel. */
  datatype State<C> = State(
    wraps: seq<Wrap<C>>, managed: map<string, nat>, op: Op<C>,
    log: seq<Entry>, open: bool, sent: seq<Entry>)

  datatype Step<C> =
    | Tick(w: nat, healthy: bool, now: int)
    | Answer(w: nat, remoteAddr: string, respErr: string, runErr: string, now: int)
    | BeginReload(cfgs: map<string, C>) | Review(name: string) | BeginFill | Fill(name: string) | EndReload
    | BeginClose | StopOne(name: string) | EndClose
    | CloseChannel

  /** The configuration of a managed name is unchanged; `same` is the comparison of configurations. */
  predicate Kept<C>(wraps: seq<Wrap<C>>, before: map<string, nat>, cfgs: map<string, C>,
                    same: (C, C) -> bool, n: string)
    requires n in before && before[n] < |wraps|
  {
    n in cfgs && same(wraps[before[n]].cfg, cfgs[n])
  }

  predicate Enabled<C>(s: State<C>, step: Step<C>) {
    match step
    case Tick(w, _, now) => w < |s.wraps| && now >= s.wraps[w].seen
    case Answer(w, _, _, _, now) => w < |s.wraps| && now >= s.wraps[w].seen
    case BeginReload(_) => s.op.Free?
    case Review(n) => s.op.Removing? && n in s.op.todo && n in s.managed && s.managed[n] < |s.wraps|
    case BeginFill => s.op.Removing? && s.op.todo == {}
    case Fill(n) => s.op.Filling? && n in s.op.todo && n in s.op.cfgs
    case EndReload => s.op.Filling? && s.op.todo == {}
    case BeginClose => s.op.Free?
    case StopOne(n) => s.op.ClosingAll? && n in s.op.todo && n in s.managed && s.managed[n] < |s.wraps|
    case EndClose => s.op.ClosingAll? && s.op.todo == {}
    case CloseChannel => s.open
  }

  /** Wrapper `w` becomes `b` and gives a message to the manager, if any. */
  function Post<C>(s: State<C>, w: nat, b: Wrap<C>, msg: Option<Kind>): State<C>
    requires w < |s.wraps|
  {
    var es := if msg.Some? then [Entry(w, msg.value, b.seen)] else [];
    s.(wraps := s.wraps[w := b], log := s.log + es, sent := if s.open then s.sent + es else s.sent)
  }

  function StopWrap<C>(s: State<C>, w: nat): State<C>
    requires w < |s.wraps|
  {
    var o := Stopped(s.wraps[w].status);
    Post(s, w, s.wraps[w].(status := o.status, stops := s.wraps[w].stops + 1), o.msg)
  }

  function Next<C>(s: State<C>, same: (C, C) -> bool, step: Step<C>): State<C>
    requires Enabled(s, step)
  {
    match step
    case Tick(w, healthy, now) =>
      var o := Check(s.wraps[w].status, healthy, now);
      Post(s, w, s.wraps[w].(status := o.status, seen := now), o.msg)
    case Answer(w, addr, respErr, runErr, now) =>
      var o := Respond(s.wraps[w].status, addr, respErr, runErr, now);
      Post(s, w, s.wraps[w].(status := o.status), o.msg)
    case BeginReload(cfgs) => s.(op := Removing(cfgs, s.managed, s.managed.Keys))
    case Review(n) =>
      var s' := s.(op := Removing(s.op.cfgs, s.op.before, s.op.todo - {n}));
      if Kept(s.wraps, s.managed, s.op.cfgs, same, n) then s'
      else StopWrap(s', s.managed[n]).(managed := s.managed - {n})
    case BeginFill => s.(op := Filling(s.op.cfgs, s.op.before, s.op.cfgs.Keys))
    case Fill(n) =>
      var s' := s.(op := Filling(s.op.cfgs, s.op.before, s.op.todo - {n}));
      if n in s.managed then s'
      else s'.(wraps := s.wraps + [Wrap(n, s.op.cfgs[n], FRESH, 0, 0)], managed := s.managed[n := |s.wraps|])
    case EndReload => s.(op := Free)
    case BeginClose => s.(op := ClosingAll(s.managed.Keys))
    case StopOne(n) => StopWrap(s, s.managed[n]).(op := ClosingAll(s.op.todo - {n}))
    case EndClose => s.(op := Free, managed := map[])
    case CloseChannel => s.(open := false)
  }

  // ---------------------------------------------------------------- what one wrapper has sent

  /** The last message of wrapper `w`. */
  function Last(log: seq<Entry>, w: nat): Option<Entry> {
    if log == [] then None
    else if log[|log| - 1].w == w then Some(log[|log| - 1])
    else Last(log[..|log| - 1], w)
  }

  lemma LastAppend(log: seq<Entry>, e: Entry, w: nat)
    ensures Last(log + [e], w) == if e.w == w then Some(e) else Last(log, w)
  {
    assert (log + [e])[..|log|] == log;
  }

  lemma {:induction false} LastMeaning(log: seq<Entry>, w: nat)
    ensures Last(log, w).None? ==> forall k | 0 <= k < |log| :: log[k].w != w
    ensures Last(log, w).Some? ==>
              exists k :: 0 <= k < |log| && log[k] == Last(log, w).value && log[k].w == w
                          && forall j | k < j < |log| :: log[j].w != w
  {
    if log != [] {
      var n := |log| - 1;
      if log[n].w == w {
        assert log[n] == Last(log, w).value;
      } else {
        LastMeaning(log[..n], w);
        if Last(log, w).Some? {
          var k :| 0 <= k < n && log[..n][k] == Last(log, w).value && log[k].w == w
                   && forall j | k < j < n :: log[..n][j].w != w;
          assert log[k] == Last(log, w).value;
          forall j | k < j < |log| ensures log[j].w != w {
            if j < n { assert log[..n][j] == log[j]; }
          }
        } else {
          forall k | 0 <= k < |log| ensures log[k].w != w {
            if k < n { assert log[..n][k] == log[k]; }
          }
        }
      }
    }
  }

  /** The phase tells which message was the last one. */
  predicate PhaseTells(p: Phase, last: Option<Entry>) {
    match p
    case New => last.None?
    case WaitStart => last.Some? && last.value.kind.StartMsg?
    case Running => last.Some? && last.value.kind.StartMsg?
    case StartErr => last.Some?
    case CheckFailed => last.Some? && last.value.kind.CloseMsg?
    case Closed => last.Some? && last.value.kind.CloseMsg?
  }

  /** The times a wrapper keeps are not before its last start message. */
  predicate TimesOk<C>(b: Wrap<C>, last: Option<Entry>) {
    last.Some? && last.value.kind.StartMsg? ==>
      && b.seen >= last.value.at
      && (b.status.phase.WaitStart? ==> b.status.lastSend == last.value.at)
      && (b.status.phase.StartErr? ==> b.status.lastErr >= last.value.at)
  }

  predicate WrapOk<C>(b: Wrap<C>, last: Option<Entry>) {
    && PhaseTells(b.status.phase, last) && TimesOk(b, last)
    && b.stops == if b.status.phase.Closed? then 1 else 0
  }

  /** A start message that repeats an unclosed one comes more than the response timeout after it. */
  predicate Spaced(last: Option<Entry>, e: Entry) {
    e.kind.StartMsg? && last.Some? && last.value.kind.StartMsg? ==> e.at > last.value.at + WAIT_RESPONSE_TIMEOUT
  }

  function NewLast(w: nat, b: int, msg: Option<Kind>, last: Option<Entry>): Option<Entry> {
    if msg.Some? then Some(Entry(w, msg.value, b)) else last
  }

  lemma TickOk<C>(w: nat, a: Wrap<C>, last: Option<Entry>, healthy: bool, now: int)
    requires WrapOk(a, last) && now >= a.seen
    ensures var o := Check(a.status, healthy, now);
            && WrapOk(a.(status := o.status, seen := now), NewLast(w, now, o.msg, last))
            && (o.msg.Some? ==> !a.status.phase.Closed? && Spaced(last, Entry(w, o.msg.value, now)))
            && (a.status.phase.Closed? <==> o.status.phase.Closed?)
  {
  }

  lemma AnswerOk<C>(w: nat, a: Wrap<C>, last: Option<Entry>, addr: string, respErr: string, runErr: string, now: int)
    requires WrapOk(a, last) && now >= a.seen
    ensures var o := Respond(a.status, addr, respErr, runErr, now);
            && WrapOk(a.(status := o.status), NewLast(w, a.seen, o.msg, last))
            && (o.msg.Some? ==> !a.status.phase.Closed? && o.msg.value.CloseMsg?)
            && (a.status.phase.Closed? <==> o.status.phase.Closed?)
  {
  }

  // ---------------------------------------------------------------- the log

  /** Messages come from wrappers there are, and those of an earlier wrapper of a name come before
      those of a later one. */
  predicate Ordered(names: seq<string>, log: seq<Entry>) {
    && (forall k | 0 <= k < |log| :: log[k].w < |names|)
    && forall j, k | 0 <= j < k < |log| && names[log[j].w] == names[log[k].w] :: log[j].w <= log[k].w
  }

  /** Every message of the log keeps its distance. */
  predicate AllSpaced(log: seq<Entry>) {
    forall k | 0 <= k < |log| :: Spaced(Last(log[..k], log[k].w), log[k])
  }

  /** `w` is the latest wrapper of its name. */
  predicate Newest(names: seq<string>, w: nat) {
    w < |names| && forall j | w < j < |names| :: names[j] != names[w]
  }

  lemma LogGrows(names: seq<string>, log: seq<Entry>, e: Entry)
    requires Ordered(names, log) && AllSpaced(log)
    requires Newest(names, e.w) && Spaced(Last(log, e.w), e)
    ensures Ordered(names, log + [e]) && AllSpaced(log + [e])
  {
    var log' := log + [e];
    assert forall k | 0 <= k <= |log| :: log'[..k] == log[..k];
    assert log[..|log|] == log;
  }

  lemma LogNewName(names: seq<string>, log: seq<Entry>, n: string)
    requires Ordered(names, log)
    ensures Ordered(names + [n], log)
  {
  }

  // ---------------------------------------------------------------- the manager

  /** What the invariant needs of a wrapper besides its messages. */
  datatype Card = Card(name: string, closed: bool)

  function CardOf<C>(b: Wrap<C>): Card { Card(b.name, b.status.phase.Closed?) }

  function Cards<C>(wraps: seq<Wrap<C>>): (cs: seq<Card>)
    ensures |cs| == |wraps| && forall k | 0 <= k < |cs| :: cs[k] == CardOf(wraps[k])
  {
    seq(|wraps|, k requires 0 <= k < |wraps| => CardOf(wraps[k]))
  }

  function NamesOf(cs: seq<Card>): (ns: seq<string>)
    ensures |ns| == |cs| && forall k | 0 <= k < |ns| :: ns[k] == cs[k].name
  {
    seq(|cs|, k requires 0 <= k < |cs| => cs[k].name)
  }

  /** A wrapper is open exactly when it is managed and not yet stopped by a close under way; a managed
      one is the newest of its name. */
  predicate ManagedOk(cs: seq<Card>, managed: map<string, nat>, stopped: set<string>) {
    && (forall n | n in managed :: Newest(NamesOf(cs), managed[n]) && cs[managed[n]].name == n)
    && (forall n | n in managed :: cs[managed[n]].closed <==> n in stopped)
    && (forall w | 0 <= w < |cs| && !cs[w].closed :: cs[w].name in managed && managed[cs[w].name] == w)
  }

  /** The managed names that the close under way has stopped. */
  function StoppedNames<C>(s: State<C>): set<string> {
    if s.op.ClosingAll? then s.managed.Keys - s.op.todo else {}
  }

  /** `before` names wrappers there are. */
  predicate Names<C>(wraps: seq<Wrap<C>>, before: map<string, nat>) {
    forall n | n in before :: before[n] < |wraps| && wraps[before[n]].name == n
  }

  /** A reload has gone over the names that are not in `todo`: it kept the unchanged ones. */
  predicate RemovingOk<C>(wraps: seq<Wrap<C>>, managed: map<string, nat>, cfgs: map<string, C>,
                          before: map<string, nat>, todo: set<string>, same: (C, C) -> bool)
  {
    && Names(wraps, before)
    && todo <= managed.Keys <= before.Keys
    && (forall n | n in managed :: managed[n] == before[n])
    && (forall n | n in before && n !in todo :: n in managed <==> Kept(wraps, before, cfgs, same, n))
  }

  /** What a reload has done with a name that was managed before. */
  predicate OldName<C>(wraps: seq<Wrap<C>>, managed: map<string, nat>, cfgs: map<string, C>,
                       before: map<string, nat>, same: (C, C) -> bool, n: string)
    requires n in before && before[n] < |wraps|
  {
    if Kept(wraps, before, cfgs, same, n) then n in managed && managed[n] == before[n]
    else wraps[before[n]].status.phase.Closed? && (n in managed ==> managed[n] > before[n])
  }

  /** A managed wrapper that was not managed before has the configuration of the reload. */
  ghost predicate NewName<C>(wraps: seq<Wrap<C>>, managed: map<string, nat>, cfgs: map<string, C>,
                             before: map<string, nat>, n: string)
    requires n in managed && n in cfgs
  {
    (n in before && managed[n] == before[n]) || (managed[n] < |wraps| && wraps[managed[n]].cfg == cfgs[n])
  }

  /** A reload has removed what it removes and filled in the names that are not in `todo`. */
  ghost predicate FillingOk<C>(wraps: seq<Wrap<C>>, managed: map<string, nat>, cfgs: map<string, C>,
                               before: map<string, nat>, todo: set<string>, same: (C, C) -> bool)
  {
    && Names(wraps, before)
    && todo <= cfgs.Keys && managed.Keys <= cfgs.Keys && cfgs.Keys - todo <= managed.Keys
    && (forall n | n in before :: OldName(wraps, managed, cfgs, before, same, n))
    && (forall n | n in managed :: NewName(wraps, managed, cfgs, before, n))
  }

  /** How far the reload has got. */
  ghost predicate ReloadOk<C>(s: State<C>, same: (C, C) -> bool) {
    match s.op
    case Free => true
    case ClosingAll(todo) => todo <= s.managed.Keys
    case Removing(cfgs, before, todo) => RemovingOk(s.wraps, s.managed, cfgs, before, todo, same)
    case Filling(cfgs, before, todo) => FillingOk(s.wraps, s.managed, cfgs, before, todo, same)
  }

  ghost predicate WrapsOk<C>(s: State<C>) {
    forall w | 0 <= w < |s.wraps| :: WrapOk(s.wraps[w], Last(s.log, w))
  }

  ghost predicate LogOk<C>(s: State<C>) {
    && Ordered(NamesOf(Cards(s.wraps)), s.log) && AllSpaced(s.log)
    && s.sent <= s.log && (s.open ==> s.sent == s.log)
  }

  ghost predicate Core<C>(s: State<C>) {
    WrapsOk(s) && LogOk(s) && ManagedOk(Cards(s.wraps), s.managed, StoppedNames(s))
  }

  ghost predicate Inv<C>(s: State<C>, same: (C, C) -> bool) {
    Core(s) && ReloadOk(s, same)
  }

  // ---------------------------------------------------------------- steps keep it

  ghost predicate PostFits<C>(s: State<C>, w: nat, b: Wrap<C>, msg: Option<Kind>) {
    && w < |s.wraps|
    && b.name == s.wraps[w].name && b.cfg == s.wraps[w].cfg
    && (s.wraps[w].status.phase.Closed? ==> b.status.phase.Closed?)
    && WrapOk(b, NewLast(w, b.seen, msg, Last(s.log, w)))
    && (msg.Some? ==> !s.wraps[w].status.phase.Closed? && Spaced(Last(s.log, w), Entry(w, msg.value, b.seen)))
  }

  lemma PostWraps<C>(s: State<C>, w: nat, b: Wrap<C>, msg: Option<Kind>)
    requires Core(s) && PostFits(s, w, b, msg)
    ensures WrapsOk(Post(s, w, b, msg))
  {
    var t := Post(s, w, b, msg);
    forall k | 0 <= k < |t.wraps| ensures WrapOk(t.wraps[k], Last(t.log, k)) {
      if msg.Some? {
        LastAppend(s.log, Entry(w, msg.value, b.seen), k);
      } else {
        assert t.log == s.log;
      }
    }
  }

  lemma PostLog<C>(s: State<C>, w: nat, b: Wrap<C>, msg: Option<Kind>)
    requires Core(s) && PostFits(s, w, b, msg)
    ensures var t := Post(s, w, b, msg);
            LogOk(t) && Cards(t.wraps) == Cards(s.wraps)[w := CardOf(b)]
  {
    var t := Post(s, w, b, msg);
    assert Cards(t.wraps) == Cards(s.wraps)[w := CardOf(b)];
    assert NamesOf(Cards(t.wraps)) == NamesOf(Cards(s.wraps));
    if msg.Some? {
      assert Cards(s.wraps)[w] == CardOf(s.wraps[w]);
      LogGrows(NamesOf(Cards(s.wraps)), s.log, Entry(w, msg.value, b.seen));
    } else {
      assert t.log == s.log && t.sent == s.sent;
    }
  }

  /** A change of one wrapper is nothing to a reload, as long as closed wrappers stay closed. */
  lemma ReloadIgnores<C>(s: State<C>, same: (C, C) -> bool, w: nat, b: Wrap<C>)
    requires ReloadOk(s, same) && w < |s.wraps| && b.cfg == s.wraps[w].cfg && b.name == s.wraps[w].name
    requires s.wraps[w].status.phase.Closed? ==> b.status.phase.Closed?
    ensures ReloadOk(s.(wraps := s.wraps[w := b]), same)
  {
    var wraps' := s.wraps[w := b];
    if s.op.Removing? {
      forall n | n in s.op.before
        ensures Kept(wraps', s.op.before, s.op.cfgs, same, n) == Kept(s.wraps, s.op.before, s.op.cfgs, same, n)
      {
      }
    }
    if s.op.Filling? {
      var before := s.op.before;
      forall n | n in before ensures OldName(wraps', s.managed, s.op.cfgs, before, same, n) {
        assert OldName(s.wraps, s.managed, s.op.cfgs, before, same, n);
      }
      forall n | n in s.managed ensures NewName(wraps', s.managed, s.op.cfgs, before, n) {
        assert NewName(s.wraps, s.managed, s.op.cfgs, before, n);
      }
    }
  }

  /** A step of one wrapper that does not close it. */
  lemma PostKeeps<C>(s: State<C>, same: (C, C) -> bool, w: nat, b: Wrap<C>, msg: Option<Kind>)
    requires Inv(s, same) && PostFits(s, w, b, msg)
    requires b.status.phase.Closed? ==> s.wraps[w].status.phase.Closed?
    ensures Inv(Post(s, w, b, msg), same)
  {
    PostWraps(s, w, b, msg);
    PostLog(s, w, b, msg);
    assert Cards(s.wraps)[w] == CardOf(b);
    assert Cards(Post(s, w, b, msg).wraps) == Cards(s.wraps);
    ReloadIgnores(s, same, w, b);
  }

  lemma TickKeeps<C>(s: State<C>, same: (C, C) -> bool, w: nat, healthy: bool, now: int)
    requires Inv(s, same) && Enabled(s, Tick(w, healthy, now))
    ensures Inv(Next(s, same, Tick(w, healthy, now)), same)
  {
    var o := Check(s.wraps[w].status, healthy, now);
    TickOk(w, s.wraps[w], Last(s.log, w), healthy, now);
    PostKeeps(s, same, w, s.wraps[w].(status := o.status, seen := now), o.msg);
  }

  lemma AnswerKeeps<C>(s: State<C>, same: (C, C) -> bool, w: nat,
                       addr: string, respErr: string, runErr: string, now: int)
    requires Inv(s, same) && Enabled(s, Answer(w, addr, respErr, runErr, now))
    ensures Inv(Next(s, same, Answer(w, addr, respErr, runErr, now)), same)
  {
    var o := Respond(s.wraps[w].status, addr, respErr, runErr, now);
    AnswerOk(w, s.wraps[w], Last(s.log, w), addr, respErr, runErr, now);
    PostKeeps(s, same, w, s.wraps[w].(status := o.status), o.msg);
  }

  lemma StopFits<C>(s: State<C>, w: nat)
    requires Core(s) && w < |s.wraps| && !s.wraps[w].status.phase.Closed?
    ensures var o := Stopped(s.wraps[w].status);
            PostFits(s, w, s.wraps[w].(status := o.status, stops := s.wraps[w].stops + 1), o.msg)
  {
    assert WrapOk(s.wraps[w], Last(s.log, w));
  }

  /** Stopping an open wrapper: everything but the bookkeeping of the manager. */
  lemma StopPost<C>(s: State<C>, w: nat)
    requires Core(s) && w < |s.wraps| && !s.wraps[w].status.phase.Closed?
    ensures var t := StopWrap(s, w);
            && WrapsOk(t) && LogOk(t)
            && Cards(t.wraps) == Cards(s.wraps)[w := Card(s.wraps[w].name, true)]
  {
    var o := Stopped(s.wraps[w].status);
    var b := s.wraps[w].(status := o.status, stops := s.wraps[w].stops + 1);
    StopFits(s, w);
    PostWraps(s, w, b, o.msg);
    PostLog(s, w, b, o.msg);
  }

  /** A managed wrapper is closed and leaves the map. */
  lemma ManagedLeaves(cs: seq<Card>, managed: map<string, nat>, n: string)
    requires ManagedOk(cs, managed, {}) && n in managed
    ensures ManagedOk(cs[managed[n] := Card(n, true)], managed - {n}, {})
  {
    assert NamesOf(cs[managed[n] := Card(n, true)]) == NamesOf(cs);
  }

  /** A managed wrapper is closed and stays in the map for now. */
  lemma ManagedStops(cs: seq<Card>, managed: map<string, nat>, stopped: set<string>, n: string)
    requires ManagedOk(cs, managed, stopped) && n in managed
    ensures ManagedOk(cs[managed[n] := Card(n, true)], managed, stopped + {n})
  {
    assert NamesOf(cs[managed[n] := Card(n, true)]) == NamesOf(cs);
  }

  /** A new wrapper under a name that is not managed. */
  lemma ManagedJoins(cs: seq<Card>, managed: map<string, nat>, n: string)
    requires ManagedOk(cs, managed, {}) && n !in managed
    ensures ManagedOk(cs + [Card(n, false)], managed[n := |cs|], {})
  {
    assert NamesOf(cs + [Card(n, false)]) == NamesOf(cs) + [n];
    var cs' := cs + [Card(n, false)];
    forall m | m in managed ensures Newest(NamesOf(cs'), managed[m]) && cs'[managed[m]].name == m {
      assert Newest(NamesOf(cs), managed[m]) && m != n;
    }
  }

  lemma CoreIgnoresOp<C>(s: State<C>, op: Op<C>)
    requires Core(s) && StoppedNames(s.(op := op)) == StoppedNames(s)
    ensures Core(s.(op := op))
  {
  }

  lemma ManagedOpen<C>(s: State<C>, n: string)
    requires Core(s) && n in s.managed && n !in StoppedNames(s)
    ensures s.managed[n] < |s.wraps| && s.wraps[s.managed[n]].name == n
    ensures !s.wraps[s.managed[n]].status.phase.Closed?
  {
    assert Cards(s.wraps)[s.managed[n]] == CardOf(s.wraps[s.managed[n]]);
  }

  lemma StopAndLeave<C>(s: State<C>, n: string)
    requires Core(s) && !s.op.ClosingAll? && n in s.managed
    ensures s.managed[n] < |s.wraps| && Core(StopWrap(s, s.managed[n]).(managed := s.managed - {n}))
  {
    ManagedOpen(s, n);
    StopPost(s, s.managed[n]);
    ManagedLeaves(Cards(s.wraps), s.managed, n);
  }

  lemma StopAndStay<C>(s: State<C>, n: string)
    requires Core(s) && s.op.ClosingAll? && n in s.op.todo && n in s.managed
    ensures s.managed[n] < |s.wraps| && Core(StopWrap(s, s.managed[n]).(op := ClosingAll(s.op.todo - {n})))
  {
    ManagedOpen(s, n);
    StopPost(s, s.managed[n]);
    ManagedStops(Cards(s.wraps), s.managed, StoppedNames(s), n);
    assert StoppedNames(StopWrap(s, s.managed[n]).(op := ClosingAll(s.op.todo - {n}))) == StoppedNames(s) + {n};
  }

  lemma ReviewCore<C>(s: State<C>, same: (C, C) -> bool, n: string)
    requires Core(s) && Enabled(s, Review(n))
    ensures Core(Next(s, same, Review(n)))
  {
    var op := Removing(s.op.cfgs, s.op.before, s.op.todo - {n});
    CoreIgnoresOp(s, op);
    StopAndLeave(s.(op := op), n);
  }

  lemma ReviewReload<C>(s: State<C>, same: (C, C) -> bool, n: string)
    requires Enabled(s, Review(n)) && ReloadOk(s, same)
    ensures ReloadOk(Next(s, same, Review(n)), same)
  {
    var t := Next(s, same, Review(n));
    var before := s.op.before;
    assert Kept(s.wraps, s.managed, s.op.cfgs, same, n) == Kept(s.wraps, before, s.op.cfgs, same, n);
    forall m | m in before
      ensures Kept(t.wraps, before, s.op.cfgs, same, m) == Kept(s.wraps, before, s.op.cfgs, same, m)
    {
    }
  }

  /** A new wrapper under a name that is not managed has sent nothing yet. */
  lemma JoinCore<C>(s: State<C>, n: string, cfg: C)
    requires Core(s) && !s.op.ClosingAll? && n !in s.managed
    ensures Core(s.(wraps := s.wraps + [Wrap(n, cfg, FRESH, 0, 0)], managed := s.managed[n := |s.wraps|]))
  {
    var wraps' := s.wraps + [Wrap(n, cfg, FRESH, 0, 0)];
    assert Cards(wraps') == Cards(s.wraps) + [Card(n, false)];
    assert NamesOf(Cards(wraps')) == NamesOf(Cards(s.wraps)) + [n];
    ManagedJoins(Cards(s.wraps), s.managed, n);
    LogNewName(NamesOf(Cards(s.wraps)), s.log, n);
    NothingSentYet(s.log, |s.wraps|);
  }

  lemma FillCore<C>(s: State<C>, same: (C, C) -> bool, n: string)
    requires Core(s) && Enabled(s, Fill(n))
    ensures Core(Next(s, same, Fill(n)))
  {
    var s' := s.(op := Filling(s.op.cfgs, s.op.before, s.op.todo - {n}));
    CoreIgnoresOp(s, s'.op);
    if n !in s.managed { JoinCore(s', n, s.op.cfgs[n]); }
  }

  lemma FillReload<C>(s: State<C>, same: (C, C) -> bool, n: string)
    requires Enabled(s, Fill(n)) && ReloadOk(s, same)
    ensures ReloadOk(Next(s, same, Fill(n)), same)
  {
    var t := Next(s, same, Fill(n));
    var cfgs, before := s.op.cfgs, s.op.before;
    forall m | m in before ensures OldName(t.wraps, t.managed, cfgs, before, same, m) {
      assert OldName(s.wraps, s.managed, cfgs, before, same, m);
    }
    forall m | m in t.managed ensures NewName(t.wraps, t.managed, cfgs, before, m) {
      if m in s.managed { assert NewName(s.wraps, s.managed, cfgs, before, m); }
    }
  }

  lemma {:induction false} NothingSentYet(log: seq<Entry>, w: nat)
    requires forall k | 0 <= k < |log| :: log[k].w < w
    ensures Last(log, w).None?
  {
    if log != [] { NothingSentYet(log[..|log| - 1], w); }
  }

  lemma StopOneKeeps<C>(s: State<C>, same: (C, C) -> bool, n: string)
    requires Inv(s, same) && Enabled(s, StopOne(n))
    ensures Inv(Next(s, same, StopOne(n)), same)
  {
    StopAndStay(s, n);
  }

  /** A wrapper that is not managed is closed. */
  lemma UnmanagedClosed<C>(s: State<C>, w: nat)
    requires Core(s) && w < |s.wraps| && !(s.wraps[w].name in s.managed && s.managed[s.wraps[w].name] == w)
    ensures s.wraps[w].status.phase.Closed?
  {
    assert Cards(s.wraps)[w] == CardOf(s.wraps[w]);
  }

  /** What is left of a reload's removals: a name is managed exactly when it is unchanged, and the
      wrappers of the other names are closed. */
  lemma FillBegins<C>(wraps: seq<Wrap<C>>, managed: map<string, nat>, cfgs: map<string, C>,
                      before: map<string, nat>, same: (C, C) -> bool)
    requires RemovingOk(wraps, managed, cfgs, before, {}, same)
    requires forall n | n in before && n !in managed :: wraps[before[n]].status.phase.Closed?
    ensures FillingOk(wraps, managed, cfgs, before, cfgs.Keys, same)
  {
    forall n | n in before ensures OldName(wraps, managed, cfgs, before, same, n) {
      assert n in managed <==> Kept(wraps, before, cfgs, same, n);
    }
    assert forall n | n in managed :: n in before && Kept(wraps, before, cfgs, same, n);
  }

  lemma BeginFillKeeps<C>(s: State<C>, same: (C, C) -> bool)
    requires Inv(s, same) && Enabled(s, BeginFill)
    ensures Inv(Next(s, same, BeginFill), same)
  {
    var cfgs, before := s.op.cfgs, s.op.before;
    CoreIgnoresOp(s, Filling(cfgs, before, cfgs.Keys));
    forall n | n in before && n !in s.managed ensures s.wraps[before[n]].status.phase.Closed? {
      UnmanagedClosed(s, before[n]);
    }
    FillBegins(s.wraps, s.managed, cfgs, before, same);
  }

  lemma BeginReloadKeeps<C>(s: State<C>, same: (C, C) -> bool, cfgs: map<string, C>)
    requires Inv(s, same) && Enabled(s, BeginReload(cfgs))
    ensures Inv(Next(s, same, BeginReload(cfgs)), same)
  {
    forall n | n in s.managed ensures s.managed[n] < |s.wraps| && s.wraps[s.managed[n]].name == n {
      assert Cards(s.wraps)[s.managed[n]].name == n;
    }
  }

  lemma OtherKeeps<C>(s: State<C>, same: (C, C) -> bool, step: Step<C>)
    requires Inv(s, same) && Enabled(s, step)
    requires step.EndReload? || step.BeginClose? || step.EndClose? || step.CloseChannel?
    ensures Inv(Next(s, same, step), same)
  {
    if step.BeginClose? { assert s.managed.Keys - s.managed.Keys == {}; }
  }

  lemma StepKeeps<C>(s: State<C>, same: (C, C) -> bool, step: Step<C>)
    requires Inv(s, same) && Enabled(s, step)
    ensures Inv(Next(s, same, step), same)
  {
    match step
    case Tick(w, healthy, now) => TickKeeps(s, same, w, healthy, now);
    case Answer(w, addr, respErr, runErr, now) => AnswerKeeps(s, same, w, addr, respErr, runErr, now);
    case Review(n) => ReviewCore(s, same, n); ReviewReload(s, same, n);
    case Fill(n) => FillCore(s, same, n); FillReload(s, same, n);
    case BeginFill => BeginFillKeeps(s, same);
    case BeginReload(cfgs) => BeginReloadKeeps(s, same, cfgs);
    case StopOne(n) => StopOneKeeps(s, same, n);
    case _ => OtherKeeps(s, same, step);
  }

  // ---------------------------------------------------------------- runs

  function Init<C>(): State<C> { State([], map[], Free, [], true, []) }

  ghost predicate Behavior<C>(ss: seq<State<C>>, steps: seq<Step<C>>, same: (C, C) -> bool) {
    && |ss| == |steps| + 1 && ss[0] == Init()
    && forall i | 0 <= i < |steps| :: Enabled(ss[i], steps[i]) && ss[i + 1] == Next(ss[i], same, steps[i])
  }

  lemma {:induction false} RunInv<C>(ss: seq<State<C>>, steps: seq<Step<C>>, same: (C, C) -> bool, i: nat)
    requires Behavior(ss, steps, same) && i < |ss|
    ensures Inv(ss[i], same)
  {
    if i > 0 {
      RunInv(ss, steps, same, i - 1);
      StepKeeps(ss[i - 1], same, steps[i - 1]);
    }
  }

  /** In every reachable state: a wrapper is closed exactly when it was stopped, and it is stopped once
      at most; the last message of a closed wrapper is a close; the messages of a wrapper come before
      those of the wrappers that replaced it; and the channel holds a prefix of the messages, all of
      them until it closes. */
  lemma MessagesWellOrdered<C>(ss: seq<State<C>>, steps: seq<Step<C>>, same: (C, C) -> bool, i: nat)
    requires Behavior(ss, steps, same) && i < |ss|
    ensures var s := ss[i];
            && (forall w | 0 <= w < |s.wraps| ::
                  && s.wraps[w].stops == (if s.wraps[w].status.phase.Closed? then 1 else 0)
                  && (s.wraps[w].status.phase.Closed? ==> EndsWithClose(s.log, w)))
            && (forall j, k | 0 <= j < k < |s.log| ::
                  && s.log[j].w < |s.wraps| && s.log[k].w < |s.wraps|
                  && (s.wraps[s.log[j].w].name == s.wraps[s.log[k].w].name ==> s.log[j].w <= s.log[k].w))
            && s.sent <= s.log && (s.open ==> s.sent == s.log)
  {
    RunInv(ss, steps, same, i);
    var s := ss[i];
    forall w | 0 <= w < |s.wraps| && s.wraps[w].status.phase.Closed? ensures EndsWithClose(s.log, w) {
      assert WrapOk(s.wraps[w], Last(s.log, w));
      LastMeaning(s.log, w);
      var k :| 0 <= k < |s.log| && s.log[k] == Last(s.log, w).value && s.log[k].w == w
               && forall j | k < j < |s.log| :: s.log[j].w != w;
    }
    var names := NamesOf(Cards(s.wraps));
    assert forall w | 0 <= w < |s.wraps| :: names[w] == Cards(s.wraps)[w].name == s.wraps[w].name;
  }

  ghost predicate EndsWithClose(log: seq<Entry>, w: nat) {
    exists k | 0 <= k < |log| ::
      log[k].w == w && log[k].kind.CloseMsg? && forall j | k < j < |log| :: log[j].w != w
  }

  /** `t` comes later than `s`: closed wrappers are untouched and have sent nothing in between. */
  ghost predicate Later<C>(s: State<C>, t: State<C>) {
    && |s.wraps| <= |t.wraps| && s.log <= t.log
    && forall w | 0 <= w < |s.wraps| && s.wraps[w].status.phase.Closed? ::
         && t.wraps[w].status == s.wraps[w].status && t.wraps[w].stops == s.wraps[w].stops
         && forall k | |s.log| <= k < |t.log| :: t.log[k].w != w
  }

  lemma PostLater<C>(s: State<C>, w: nat, b: Wrap<C>, msg: Option<Kind>)
    requires w < |s.wraps|
    requires s.wraps[w].status.phase.Closed? ==>
               msg.None? && b.status == s.wraps[w].status && b.stops == s.wraps[w].stops
    ensures Later(s, Post(s, w, b, msg))
  {
  }

  /** A pass of a worker, an answer, and every step that stops no wrapper. */
  lemma QuietLater<C>(s: State<C>, same: (C, C) -> bool, step: Step<C>)
    requires Enabled(s, step) && !step.Review? && !step.StopOne?
    ensures Later(s, Next(s, same, step))
  {
    match step
    case Tick(w, healthy, now) =>
      var o := Check(s.wraps[w].status, healthy, now);
      PostLater(s, w, s.wraps[w].(status := o.status, seen := now), o.msg);
    case Answer(w, addr, respErr, runErr, now) =>
      var o := Respond(s.wraps[w].status, addr, respErr, runErr, now);
      PostLater(s, w, s.wraps[w].(status := o.status), o.msg);
    case _ =>
  }

  /** What is closed and what was sent says nothing of the lock and of who is managed. */
  lemma LaterIgnores<C>(s: State<C>, t: State<C>, s': State<C>, t': State<C>)
    requires Later(s, t)
    requires s'.wraps == s.wraps && s'.log == s.log && t'.wraps == t.wraps && t'.log == t.log
    ensures Later(s', t')
  {
  }

  lemma StopLater<C>(s: State<C>, w: nat)
    requires w < |s.wraps| && !s.wraps[w].status.phase.Closed?
    ensures Later(s, StopWrap(s, w))
  {
    var o := Stopped(s.wraps[w].status);
    PostLater(s, w, s.wraps[w].(status := o.status, stops := s.wraps[w].stops + 1), o.msg);
  }

  lemma ReviewLater<C>(s: State<C>, same: (C, C) -> bool, n: string)
    requires Enabled(s, Review(n)) && !s.wraps[s.managed[n]].status.phase.Closed?
    ensures Later(s, Next(s, same, Review(n)))
  {
    if Kept(s.wraps, s.managed, s.op.cfgs, same, n) {
      LaterSelf(s);
      LaterIgnores(s, s, s, Next(s, same, Review(n)));
    } else {
      StopLater(s, s.managed[n]);
      LaterIgnores(s, StopWrap(s, s.managed[n]), s, Next(s, same, Review(n)));
    }
  }

  lemma StopOneLater<C>(s: State<C>, same: (C, C) -> bool, n: string)
    requires Enabled(s, StopOne(n)) && !s.wraps[s.managed[n]].status.phase.Closed?
    ensures Later(s, Next(s, same, StopOne(n)))
  {
    StopLater(s, s.managed[n]);
    LaterIgnores(s, StopWrap(s, s.managed[n]), s, Next(s, same, StopOne(n)));
  }

  lemma StepLater<C>(s: State<C>, same: (C, C) -> bool, step: Step<C>)
    requires Core(s) && Enabled(s, step)
    ensures Later(s, Next(s, same, step))
  {
    match step
    case Review(n) =>
      ManagedOpen(s, n);
      ReviewLater(s, same, n);
    case StopOne(n) =>
      ManagedOpen(s, n);
      StopOneLater(s, same, n);
    case _ => QuietLater(s, same, step);
  }

  lemma LaterTransitive<C>(s: State<C>, t: State<C>, u: State<C>)
    requires Later(s, t) && Later(t, u)
    ensures Later(s, u)
  {
    forall w | 0 <= w < |s.wraps| && s.wraps[w].status.phase.Closed?
      ensures u.wraps[w].status == s.wraps[w].status && u.wraps[w].stops == s.wraps[w].stops
      ensures forall k | |s.log| <= k < |u.log| :: u.log[k].w != w
    {
      forall k | |s.log| <= k < |u.log| ensures u.log[k].w != w {
        if k < |t.log| { assert u.log[k] == t.log[k]; }
      }
    }
  }

  lemma RunStepLater<C>(ss: seq<State<C>>, steps: seq<Step<C>>, same: (C, C) -> bool, i: nat, j: nat)
    requires Behavior(ss, steps, same) && i <= j < |steps| && Later(ss[i], ss[j])
    ensures Later(ss[i], ss[j + 1])
  {
    RunInv(ss, steps, same, j);
    StepLater(ss[j], same, steps[j]);
    LaterTransitive(ss[i], ss[j], ss[j + 1]);
  }

  lemma LaterSelf<C>(s: State<C>)
    ensures Later(s, s)
  {
  }

  /** Closed is final: whatever happens later, a closed wrapper keeps its phase, is not stopped again
      and sends nothing. */
  lemma {:induction false} ClosedIsFinal<C>(ss: seq<State<C>>, steps: seq<Step<C>>, same: (C, C) -> bool,
                                            i: nat, j: nat)
    requires Behavior(ss, steps, same) && i <= j < |ss|
    ensures Later(ss[i], ss[j])
    decreases j
  {
    if i == j {
      LaterSelf(ss[i]);
    } else {
      ClosedIsFinal(ss, steps, same, i, j - 1);
      RunStepLater(ss, steps, same, i, j - 1);
    }
  }

  /** A wrapper that asks again without having closed in between waited longer than the response
      timeout. */
  lemma RetriesSpaced<C>(ss: seq<State<C>>, steps: seq<Step<C>>, same: (C, C) -> bool, i: nat, j: nat, k: nat)
    requires Behavior(ss, steps, same) && i < |ss| && j < k < |ss[i].log|
    requires var log := ss[i].log;
             && log[j].w == log[k].w && log[j].kind.StartMsg? && log[k].kind.StartMsg?
             && forall m | j < m < k :: log[m].w != log[j].w
    ensures ss[i].log[k].at > ss[i].log[j].at + WAIT_RESPONSE_TIMEOUT
  {
    RunInv(ss, steps, same, i);
    var log := ss[i].log;
    LastIs(log[..k], j, log[k].w);
    assert Spaced(Last(log[..k], log[k].w), log[k]);
  }

  lemma {:induction false} LastIs(log: seq<Entry>, j: nat, w: nat)
    requires j < |log| && log[j].w == w && forall m | j < m < |log| :: log[m].w != w
    ensures Last(log, w) == Some(log[j])
  {
    if j < |log| - 1 { LastIs(log[..|log| - 1], j, w); }
  }

  /** The reload that began at `i` is still under way at `j`. */
  // ---------------------------------------------------------------- why a proxy runs

  /** Step `j` answers a waiting wrapper `w` without an error, with this address. */
  predicate Accepted<C>(ss: seq<State<C>>, steps: seq<Step<C>>, j: nat, w: nat, addr: string)
    requires j < |steps| && j < |ss|
  {
    && steps[j].Answer? && steps[j].w == w && steps[j].respErr == "" && steps[j].runErr == ""
    && steps[j].remoteAddr == addr && w < |ss[j].wraps| && ss[j].wraps[w].status.phase.WaitStart?
  }

  /** A step after which a wrapper runs is an answer without an error, or leaves it running as it was. */
  lemma RunsBecause<C>(s: State<C>, same: (C, C) -> bool, step: Step<C>, w: nat)
    requires Enabled(s, step) && w < |Next(s, same, step).wraps|
    requires Next(s, same, step).wraps[w].status.phase.Running?
    ensures w < |s.wraps|
    ensures var addr := Next(s, same, step).wraps[w].status.remoteAddr;
            if s.wraps[w].status.phase.Running? then addr == s.wraps[w].status.remoteAddr
            else step == Answer(w, addr, "", "", step.now) && s.wraps[w].status.phase.WaitStart?
  {
    if step.Tick? && step.w == w { PassMeans(s.wraps[w].status, step.healthy, step.now); }
    if step.Answer? && step.w == w {
      AnswerMeans(s.wraps[w].status, step.remoteAddr, step.respErr, step.runErr, step.now);
    }
  }

  /** A wrapper that runs was waiting when the server accepted it and running the proxy succeeded, and
      has the address of that answer. */
  lemma {:induction false} RunningAnswered<C>(ss: seq<State<C>>, steps: seq<Step<C>>, same: (C, C) -> bool,
                                              i: nat, w: nat)
    requires Behavior(ss, steps, same) && i < |ss| && w < |ss[i].wraps| && ss[i].wraps[w].status.phase.Running?
    ensures exists j | 0 <= j < i :: Accepted(ss, steps, j, w, ss[i].wraps[w].status.remoteAddr)
  {
    assert i > 0;
    RunsBecause(ss[i - 1], same, steps[i - 1], w);
    if ss[i - 1].wraps[w].status.phase.Running? {
      RunningAnswered(ss, steps, same, i - 1, w);
    } else {
      assert Accepted(ss, steps, i - 1, w, ss[i].wraps[w].status.remoteAddr);
    }
  }

  /** Passes and answers happen at any time that is not before the worker's last pass, a reload or a close
      begins whenever none is under way, and the channel can be closed once. */
  lemma StepsAnyTime<C>(s: State<C>, w: nat, healthy: bool, addr: string, respErr: string, runErr: string, now: int,
                        cfgs: map<string, C>)
    ensures Enabled(s, Tick(w, healthy, now)) <==> w < |s.wraps| && s.wraps[w].seen <= now
    ensures Enabled(s, Answer(w, addr, respErr, runErr, now)) <==> w < |s.wraps| && s.wraps[w].seen <= now
    ensures Enabled(s, BeginReload(cfgs)) <==> s.op == Free
    ensures Enabled(s, BeginClose) <==> s.op == Free
    ensures Enabled(s, CloseChannel) <==> s.open
  {
  }

  /** What a pass of the worker leaves behind. */
  lemma PassLeaves<C>(s: State<C>, same: (C, C) -> bool, w: nat, healthy: bool, now: int)
    requires Enabled(s, Tick(w, healthy, now))
    ensures var b := Next(s, same, Tick(w, healthy, now)).wraps[w].status;
            if healthy then
              && !b.phase.New? && !b.phase.CheckFailed?
              && (b.phase.WaitStart? ==> now <= b.lastSend + 20_000_000_000)
              && (b.phase.StartErr? ==> now <= b.lastErr + 30_000_000_000)
            else !b.phase.Running? && !b.phase.WaitStart?
  {
    PassMeans(s.wraps[w].status, healthy, now);
  }

  /** Whatever has happened, a wrapper that is not closed can come to run: a later healthy pass asks for a
      start unless it runs already, and the answer without an error does the rest. */
  lemma CanRun<C>(s: State<C>, same: (C, C) -> bool, w: nat, addr: string) returns (now: int)
    requires w < |s.wraps| && !s.wraps[w].status.phase.Closed?
    ensures Enabled(s, Tick(w, true, now))
    ensures var t := Next(s, same, Tick(w, true, now));
            && Enabled(t, Answer(w, addr, "", "", now))
            && Next(t, same, Answer(w, addr, "", "", now)).wraps[w].status.phase.Running?
  {
    var b := s.wraps[w];
    now := b.seen;
    if now < b.status.lastSend + 20_000_000_001 { now := b.status.lastSend + 20_000_000_001; }
    if now < b.status.lastErr + 30_000_000_001 { now := b.status.lastErr + 30_000_000_001; }
    PassMeans(b.status, true, now);
    AnswerMeans(Check(b.status, true, now).status, addr, "", "", now);
  }

  // ---------------------------------------------------------------- the manager's lock

  /** How much a reload or a close still has to do. */
  function Rank<C>(op: Op<C>): nat {
    match op
    case Free => 0
    case Removing(cfgs, _, todo) => |todo| + |cfgs.Keys| + 2
    case Filling(_, _, todo) => |todo| + 1
    case ClosingAll(todo) => |todo| + 1
  }

  /** Steps of a reload or a close. */
  predicate OfOp<C>(step: Step<C>) {
    || step.Review? || step.BeginFill? || step.Fill? || step.EndReload? || step.StopOne? || step.EndClose?
  }

  /** The step for the next name, or the one that ends the loop. */
  function NextOfOp<C>(op: Op<C>, n: string): Step<C>
    requires !op.Free?
  {
    match op
    case Removing(_, _, todo) => if todo == {} then BeginFill else Review(n)
    case Filling(_, _, todo) => if todo == {} then EndReload else Fill(n)
    case ClosingAll(todo) => if todo == {} then EndClose else StopOne(n)
  }

  lemma NextOfOpEnabled<C>(s: State<C>, same: (C, C) -> bool, n: string)
    requires ReloadOk(s, same) && !s.op.Free? && (s.op.todo != {} ==> n in s.op.todo)
    requires forall m | m in s.managed :: s.managed[m] < |s.wraps|
    ensures Enabled(s, NextOfOp(s.op, n))
  {
  }

  lemma NextOfOpRanks<C>(s: State<C>, same: (C, C) -> bool, n: string)
    requires !s.op.Free? && (s.op.todo != {} ==> n in s.op.todo) && Enabled(s, NextOfOp(s.op, n))
    ensures Rank(Next(s, same, NextOfOp(s.op, n)).op) < Rank(s.op)
  {
    if s.op.todo != {} { assert |s.op.todo - {n}| == |s.op.todo| - 1; }
  }

  /** A reload or a close under way always has a next step of its own, and there are finitely many. */
  lemma OpGoesOn<C>(s: State<C>, same: (C, C) -> bool) returns (step: Step<C>)
    requires Inv(s, same) && !s.op.Free?
    ensures Enabled(s, step) && OfOp(step) && Rank(Next(s, same, step).op) < Rank(s.op)
  {
    var n := "";
    if s.op.todo != {} { n :| n in s.op.todo; }
    forall m | m in s.managed ensures s.managed[m] < |s.wraps| {
      assert Newest(NamesOf(Cards(s.wraps)), s.managed[m]);
    }
    step := NextOfOp(s.op, n);
    NextOfOpEnabled(s, same, n);
    NextOfOpRanks(s, same, n);
  }

  // ---------------------------------------------------------------- whole reloads

  ghost predicate ReloadUnderWay<C>(ss: seq<State<C>>, steps: seq<Step<C>>, i: nat, j: nat) {
    && i < j < |ss| && |ss| == |steps| + 1 && steps[i].BeginReload?
    && forall k | i < k < j :: !steps[k].EndReload?
  }

  lemma {:induction false} ReloadRemembers<C>(ss: seq<State<C>>, steps: seq<Step<C>>, same: (C, C) -> bool,
                                              i: nat, j: nat)
    requires Behavior(ss, steps, same) && ReloadUnderWay(ss, steps, i, j)
    ensures (ss[j].op.Removing? || ss[j].op.Filling?) && ss[j].op.cfgs == steps[i].cfgs
    ensures ss[j].op.before == ss[i].managed
    decreases j
  {
    if i + 1 < j {
      ReloadRemembers(ss, steps, same, i, j - 1);
      assert !steps[j - 1].EndReload?;
    }
  }

  /** When a reload ends, the managed names are the names of its configuration. A name whose
      configuration is unchanged keeps its wrapper; every other name that was managed before has had
      its wrapper closed; and a wrapper that was not managed before is newer and has the new
      configuration. */
  lemma ReloadResult<C>(ss: seq<State<C>>, steps: seq<Step<C>>, same: (C, C) -> bool, i: nat, j: nat)
    requires Behavior(ss, steps, same) && ReloadUnderWay(ss, steps, i, j)
    requires j < |steps| && steps[j].EndReload?
    ensures var s, was, cfgs := ss[j + 1], ss[i], steps[i].cfgs;
            && s.managed.Keys == cfgs.Keys && |was.wraps| <= |s.wraps|
            && (forall n | n in s.managed :: s.managed[n] < |s.wraps| && s.wraps[s.managed[n]].name == n
                                             && !s.wraps[s.managed[n]].status.phase.Closed?)
            && (forall n | n in was.managed :: was.managed[n] < |was.wraps| && was.wraps[was.managed[n]].name == n)
            && (forall n | n in was.managed && n in cfgs && same(s.wraps[was.managed[n]].cfg, cfgs[n]) ::
                  s.managed[n] == was.managed[n])
            && (forall n | n in was.managed && !(n in cfgs && same(s.wraps[was.managed[n]].cfg, cfgs[n])) ::
                  && s.wraps[was.managed[n]].status.phase.Closed?
                  && (n in cfgs ==> s.managed[n] > was.managed[n]))
            && (forall n | n in cfgs && !(n in was.managed && s.managed[n] == was.managed[n]) ::
                  s.wraps[s.managed[n]].cfg == cfgs[n])
  {
    ReloadRemembers(ss, steps, same, i, j);
    RunInv(ss, steps, same, i);
    RunInv(ss, steps, same, j);
    ClosedIsFinal(ss, steps, same, i, j);
    ReloadMeans(ss[j], same);
    var was := ss[i];
    forall n | n in was.managed ensures was.managed[n] < |was.wraps| && was.wraps[was.managed[n]].name == n {
      assert Cards(was.wraps)[was.managed[n]] == CardOf(was.wraps[was.managed[n]]);
    }
  }

  lemma ReloadMeans<C>(s: State<C>, same: (C, C) -> bool)
    requires Inv(s, same) && s.op.Filling? && s.op.todo == {}
    ensures var before, cfgs := s.op.before, s.op.cfgs;
            && s.managed.Keys == cfgs.Keys && Names(s.wraps, before)
            && (forall n | n in s.managed :: s.managed[n] < |s.wraps| && s.wraps[s.managed[n]].name == n
                                             && !s.wraps[s.managed[n]].status.phase.Closed?)
            && (forall n | n in before :: OldName(s.wraps, s.managed, cfgs, before, same, n))
            && (forall n | n in cfgs :: NewName(s.wraps, s.managed, cfgs, before, n))
  {
    forall n | n in s.managed
      ensures s.managed[n] < |s.wraps| && s.wraps[s.managed[n]].name == n && !s.wraps[s.managed[n]].status.phase.Closed?
    {
      assert Cards(s.wraps)[s.managed[n]] == CardOf(s.wraps[s.managed[n]]);
    }
  }
}
