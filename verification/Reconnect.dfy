/** How the client paces its reconnecting: the back-off before a pass and the waits between login
    attempts inside it. Times are in nanoseconds. */
module Reconnect {
  const SECOND := 1_000_000_000
  const MINUTE := 60 * SECOND
  const MAX_DELAY := 20 * SECOND

  // ---------------------------------------------------------------- waits between login attempts

  /** The wait after a failed attempt, given whether it failed at dialling. */
  function NextDelay(delay: int, dial: bool): int {
    if dial then 2 * SECOND else if delay * 2 > MAX_DELAY then MAX_DELAY else delay * 2
  }

  /** The waits of one pass: `failures` says of each failed attempt whether it failed at dialling. */
  function LoginWaits(failures: seq<bool>): seq<int> {
    if failures == [] then []
    else LoginWaits(failures[..|failures| - 1]) + [DelayAfter(failures[..|failures| - 1])]
  }

  function DelayAfter(failures: seq<bool>): int {
    if failures == [] then SECOND
    else NextDelay(DelayAfter(failures[..|failures| - 1]), failures[|failures| - 1])
  }

  lemma {:induction false} DelayInRange(failures: seq<bool>)
    ensures SECOND <= DelayAfter(failures) <= MAX_DELAY
  {
    if failures != [] { DelayInRange(failures[..|failures| - 1]); }
  }

  /** The wait before attempt `k + 1` is the one the first `k` failures led to; it is between one and
      twenty seconds, it is two seconds after a dial failure, and otherwise it never shrinks. */
  lemma {:induction false} LoginWaitsAt(failures: seq<bool>, k: nat)
    requires k < |failures|
    ensures |LoginWaits(failures)| == |failures|
    ensures LoginWaits(failures)[k] == DelayAfter(failures[..k])
    ensures SECOND <= LoginWaits(failures)[k] <= MAX_DELAY
    ensures k > 0 && failures[k - 1] ==> LoginWaits(failures)[k] == 2 * SECOND
    ensures k > 0 && !failures[k - 1] ==> LoginWaits(failures)[k] >= DelayAfter(failures[..k - 1])
  {
    var n := |failures| - 1;
    DelayInRange(failures[..k]);
    LengthOfWaits(failures[..n]);
    if k < n {
      LoginWaitsAt(failures[..n], k);
      assert failures[..n][..k] == failures[..k];
    }
    if k > 0 {
      assert failures[..k][..k - 1] == failures[..k - 1];
      DelayInRange(failures[..k - 1]);
    }
  }

  lemma {:induction false} LengthOfWaits(failures: seq<bool>)
    ensures |LoginWaits(failures)| == |failures|
  {
    if failures != [] { LengthOfWaits(failures[..|failures| - 1]); }
  }

  function Pow2(n: nat): nat { if n == 0 then 1 else 2 * Pow2(n - 1) }

  /** The wait doubles from one second, or from two after a dial failure, up to twenty: `m` is the number
      of failures since then. */
  lemma {:induction false} LoginWaitExactly(failures: seq<bool>, k: nat, m: nat)
    requires m <= k < |failures| && forall j | k - m <= j < k :: !failures[j]
    requires k == m || failures[k - m - 1]
    ensures |LoginWaits(failures)| == |failures|
    ensures var doubled := (if k == m then 1 else 2) * Pow2(m);
            LoginWaits(failures)[k] == (if doubled > 20 then 20 else doubled) * 1_000_000_000
  {
    LoginWaitsAt(failures, k);
    DelayDoubles(failures[..k], m);
  }

  lemma {:induction false} DelayDoubles(failures: seq<bool>, m: nat)
    requires m <= |failures| && forall j | |failures| - m <= j < |failures| :: !failures[j]
    requires |failures| == m || failures[|failures| - m - 1]
    ensures var doubled := (if |failures| == m then 1 else 2) * Pow2(m);
            DelayAfter(failures) == (if doubled > 20 then 20 else doubled) * 1_000_000_000
  {
    if m > 0 { DelayDoubles(failures[..|failures| - 1], m - 1); }
  }

  // ---------------------------------------------------------------- back-off before a pass

  datatype Window = Window(cutoff: int, delay: int, counts: int)

  /** One pass: when the old controller was done, what the clock said after the back-off, and the
      failures before the login that succeeded. */
  datatype Pass = Pass(closed: int, now: int, failures: seq<bool>)

  function NewWindow(now: int): Window { Window(now + MINUTE, SECOND, 1) }

  /** The back-off of the next pass. */
  function Slept(w: Window): int { if w.counts > 3 then w.delay else 0 }

  /** The pass ends the window. */
  predicate Resets(w: Window, p: Pass) { p.now > w.cutoff }

  function AfterPass(w: Window, p: Pass): Window {
    if Resets(w, p) then NewWindow(p.now)
    else Window(w.cutoff, if w.counts > 3 then w.delay * 2 else w.delay, w.counts + 1)
  }

  /** The window before pass `k`. */
  function WindowAt(start: int, ps: seq<Pass>, k: nat): Window
    requires k <= |ps|
  {
    if k == 0 then NewWindow(start) else AfterPass(WindowAt(start, ps, k - 1), ps[k - 1])
  }

  function Before(start: int, ps: seq<Pass>, k: nat): int
    requires k <= |ps|
  {
    if k == 0 then start else ps[k - 1].now
  }

  /** The clock does not go back, and a sleep takes at least as long as asked. */
  predicate Timely(start: int, ps: seq<Pass>) {
    forall k | 0 <= k < |ps| ::
      Before(start, ps, k) <= ps[k].closed && ps[k].closed + Slept(WindowAt(start, ps, k)) <= ps[k].now
  }

  /** The back-offs and the login waits of the first `k` passes. */
  function Sleeps(start: int, ps: seq<Pass>, k: nat): seq<int>
    requires k <= |ps|
  {
    if k == 0 then [] else Sleeps(start, ps, k - 1) + [Slept(WindowAt(start, ps, k - 1))]
  }

  function AllWaits(ps: seq<Pass>, k: nat): seq<seq<int>>
    requires k <= |ps|
  {
    if k == 0 then [] else AllWaits(ps, k - 1) + [LoginWaits(ps[k - 1].failures)]
  }

  lemma {:induction false} SleepsAt(start: int, ps: seq<Pass>, k: nat, j: nat)
    requires j < k <= |ps|
    ensures |Sleeps(start, ps, k)| == k == |AllWaits(ps, k)|
    ensures Sleeps(start, ps, k)[j] == Slept(WindowAt(start, ps, j))
    ensures AllWaits(ps, k)[j] == LoginWaits(ps[j].failures)
  {
    if k > 1 { SleepsAt(start, ps, k - 1, if j < k - 1 then j else 0); }
  }

  /** The login loop of one pass; afterwards the wait is back at a second. */
  method LogIn(failures: seq<bool>, initial: int) returns (wait: seq<int>, delayTime: int)
    requires initial == SECOND
    ensures wait == LoginWaits(failures) && delayTime == SECOND
  {
    delayTime := initial;
    wait := [];
    var j := 0;
    while j < |failures|
      invariant 0 <= j <= |failures|
      invariant wait == LoginWaits(failures[..j]) && delayTime == DelayAfter(failures[..j])
    {
      wait := wait + [delayTime];
      if failures[j] {
        delayTime := 2 * SECOND;
      } else {
        delayTime := delayTime * 2;
        if delayTime > MAX_DELAY { delayTime := MAX_DELAY; }
      }
      assert failures[..j + 1][..j] == failures[..j];
      j := j + 1;
    }
    assert failures[..|failures|] == failures;
    delayTime := SECOND;
  }

  method KeepControllerWorking(start: int, ps: seq<Pass>) returns (sleeps: seq<int>, waits: seq<seq<int>>)
    ensures sleeps == Sleeps(start, ps, |ps|) && waits == AllWaits(ps, |ps|)
  {
    var delayTime := SECOND;
    var cutoffTime := start + MINUTE;
    var reconnectDelay := SECOND;
    var reconnectCounts := 1;
    sleeps, waits := [], [];
    var k := 0;
    while k < |ps|
      invariant 0 <= k <= |ps| && delayTime == SECOND
      invariant WindowAt(start, ps, k) == Window(cutoffTime, reconnectDelay, reconnectCounts)
      invariant sleeps == Sleeps(start, ps, k) && waits == AllWaits(ps, k)
    {
      var slept := 0;
      if reconnectCounts > 3 {
        slept := reconnectDelay;
        reconnectDelay := reconnectDelay * 2;
      }
      reconnectCounts := reconnectCounts + 1;
      if ps[k].now > cutoffTime {
        cutoffTime := ps[k].now + MINUTE;
        reconnectDelay := SECOND;
        reconnectCounts := 1;
      }
      var wait: seq<int>;
      wait, delayTime := LogIn(ps[k].failures, delayTime);
      sleeps, waits := sleeps + [slept], waits + [wait];
      k := k + 1;
    }
  }

  // ---------------------------------------------------------------- the schedule

  /** The window before pass `i` is a new one that lasts to pass `k`. */
  predicate OneWindow(start: int, ps: seq<Pass>, i: nat, k: nat)
    requires i <= k <= |ps|
  {
    && (i == 0 || Resets(WindowAt(start, ps, i - 1), ps[i - 1]))
    && forall j | i <= j < k :: !Resets(WindowAt(start, ps, j), ps[j])
  }

  lemma {:induction false} WindowOf(start: int, ps: seq<Pass>, i: nat, k: nat)
    requires i <= k <= |ps| && OneWindow(start, ps, i, k)
    ensures var w := WindowAt(start, ps, k);
            && w.counts == k - i + 1 && w.cutoff == Before(start, ps, i) + 60 * 1_000_000_000
            && w.delay == (if k - i < 3 then 1 else Pow2(k - i - 3)) * 1_000_000_000
    decreases k
  {
    if i < k { WindowOf(start, ps, i, k - 1); }
  }

  /** The first three passes of a window do not sleep; the next ones sleep one second, two, four, and so
      on. The window ends with the first pass that is more than a minute after its beginning. */
  lemma BackOffExactly(start: int, ps: seq<Pass>, i: nat, k: nat)
    requires i <= k < |ps| && OneWindow(start, ps, i, k)
    ensures |Sleeps(start, ps, |ps|)| == |ps|
    ensures Sleeps(start, ps, |ps|)[k] == (if k - i < 3 then 0 else Pow2(k - i - 3) * 1_000_000_000)
    ensures OneWindow(start, ps, i, k + 1) <==> ps[k].now - Before(start, ps, i) <= 60 * 1_000_000_000
    ensures OneWindow(start, ps, k + 1, k + 1) <==> ps[k].now - Before(start, ps, i) > 60 * 1_000_000_000
  {
    WindowOf(start, ps, i, k);
    SleepsAt(start, ps, |ps|, k);
  }

  // ---------------------------------------------------------------- the bound

  /** The delay that goes with a count. */
  function DelayFor(counts: int): int {
    if counts <= 4 then SECOND
    else if counts == 5 then 2 * SECOND
    else if counts == 6 then 4 * SECOND
    else if counts == 7 then 8 * SECOND
    else if counts == 8 then 16 * SECOND
    else 32 * SECOND
  }

  /** All but the first second of the delay has been slept in the window, and the window is not over at
      the last reading of the clock. */
  predicate WindowOk(w: Window, last: int) {
    && 1 <= w.counts <= 9 && w.delay == DelayFor(w.counts)
    && w.cutoff - MINUTE + w.delay - SECOND <= last <= w.cutoff
  }

  lemma WindowStep(w: Window, last: int, p: Pass)
    requires WindowOk(w, last) && last <= p.closed && p.closed + Slept(w) <= p.now
    ensures WindowOk(AfterPass(w, p), p.now)
  {
  }

  lemma {:induction false} WindowInv(start: int, ps: seq<Pass>, k: nat)
    requires Timely(start, ps) && k <= |ps|
    ensures WindowOk(WindowAt(start, ps, k), Before(start, ps, k))
  {
    if k > 0 {
      WindowInv(start, ps, k - 1);
      assert Before(start, ps, k - 1) <= ps[k - 1].closed;
      WindowStep(WindowAt(start, ps, k - 1), Before(start, ps, k - 1), ps[k - 1]);
    }
  }

  /** No back-off is longer than 32 seconds, and no wait for a login longer than 20. */
  lemma WaitsBounded(start: int, ps: seq<Pass>, k: nat)
    requires Timely(start, ps) && k < |ps|
    ensures |Sleeps(start, ps, |ps|)| == |ps| == |AllWaits(ps, |ps|)|
    ensures 0 <= Sleeps(start, ps, |ps|)[k] <= 32 * SECOND
    ensures forall j | 0 <= j < |AllWaits(ps, |ps|)[k]| :: SECOND <= AllWaits(ps, |ps|)[k][j] <= MAX_DELAY
  {
    WindowInv(start, ps, k);
    SleepsAt(start, ps, |ps|, k);
    var waits := LoginWaits(ps[k].failures);
    LengthOfWaits(ps[k].failures);
    forall j | 0 <= j < |waits| ensures SECOND <= waits[j] <= MAX_DELAY { LoginWaitsAt(ps[k].failures, j); }
  }

  /** The number of passes since the window began shows in the count. */
  lemma {:induction false} CountsPasses(start: int, ps: seq<Pass>, i: nat, k: nat)
    requires i <= k <= |ps| && forall j | i <= j < k :: !Resets(WindowAt(start, ps, j), ps[j])
    ensures WindowAt(start, ps, k).counts == WindowAt(start, ps, i).counts + (k - i)
    decreases k
  {
    if i < k { CountsPasses(start, ps, i, k - 1); }
  }

  /** Among any nine passes in a row one resets the window. */
  lemma ResetWithinNine(start: int, ps: seq<Pass>, i: nat)
    requires Timely(start, ps) && i + 9 <= |ps|
    ensures exists j | i <= j < i + 9 :: Resets(WindowAt(start, ps, j), ps[j])
  {
    if forall j | i <= j < i + 9 :: !Resets(WindowAt(start, ps, j), ps[j]) {
      CountsPasses(start, ps, i, i + 9);
      WindowInv(start, ps, i);
      WindowInv(start, ps, i + 9);
      assert false;
    }
  }

  /** The bounds are met: a client that loses each controller at once sleeps 32 seconds in the ninth
      pass, the first that resets. */
  lemma BoundsReached()
    ensures exists ps :: Timely(0, ps) && |ps| == 9 && Slept(WindowAt(0, ps, 8)) == 32 * SECOND
                         && forall j | 0 <= j < 9 :: Resets(WindowAt(0, ps, j), ps[j]) <==> j == 8
  {
    var at := [0, 0, 0, 1, 3, 7, 15, 31, 63];
    var ps := seq(9, k requires 0 <= k < 9 => Pass(if k == 0 then 0 else at[k - 1] * SECOND, at[k] * SECOND, []));
    assert WindowAt(0, ps, 0) == Window(MINUTE, SECOND, 1);
    assert WindowAt(0, ps, 1) == Window(MINUTE, SECOND, 2);
    assert WindowAt(0, ps, 2) == Window(MINUTE, SECOND, 3);
    assert WindowAt(0, ps, 3) == Window(MINUTE, SECOND, 4);
    assert WindowAt(0, ps, 4) == Window(MINUTE, 2 * SECOND, 5);
    assert WindowAt(0, ps, 5) == Window(MINUTE, 4 * SECOND, 6);
    assert WindowAt(0, ps, 6) == Window(MINUTE, 8 * SECOND, 7);
    assert WindowAt(0, ps, 7) == Window(MINUTE, 16 * SECOND, 8);
    assert WindowAt(0, ps, 8) == Window(MINUTE, 32 * SECOND, 9);
  }
}
