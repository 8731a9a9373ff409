/** The counter that keeps one 64-bit sum for each of the last days. Days are whole numbers. */
module DateCounter {
  const TWO63: int := 0x8000_0000_0000_0000
  const TWO64: int := 0x1_0000_0000_0000_0000

  /** The 64-bit value of an integer. */
  function Wrap(x: int): int {
    if x % TWO64 < TWO63 then x % TWO64 else x % TWO64 - TWO64
  }

  /** The 64-bit value is in the signed range and differs by a multiple of 2^64. */
  lemma WrapMeaning(x: int)
    ensures -0x8000_0000_0000_0000 <= Wrap(x) < 0x8000_0000_0000_0000
    ensures exists k :: x == Wrap(x) + k * 0x1_0000_0000_0000_0000
    ensures -0x8000_0000_0000_0000 <= x < 0x8000_0000_0000_0000 ==> Wrap(x) == x
  {
    var k := if Wrap(x) == x % TWO64 then x / TWO64 else x / TWO64 + 1;
    assert x == Wrap(x) + k * TWO64;
  }

  lemma WrapAdd(a: int, b: int)
    ensures Wrap(Wrap(a) + b) == Wrap(a + b)
  {
    var k := if Wrap(a) == a % TWO64 then a / TWO64 else a / TWO64 + 1;
    assert a == Wrap(a) + k * TWO64;
    SameWrap(Wrap(a) + b, k);
  }

  lemma SameWrap(x: int, k: int)
    ensures Wrap(x + k * TWO64) == Wrap(x)
  {
    assert (x + k * TWO64) % TWO64 == x % TWO64;
  }

  // ---------------------------------------------------------------- the counter as a value

  /** `counts[i]` is the sum of `i` days before `last`. */
  datatype Counter = Counter(counts: seq<int>, last: int)

  datatype Op = Inc(n: int, now: int) | Dec(n: int, now: int) | Read(now: int) | Clear

  function Zeros(n: nat): seq<int> { seq(n, _ => 0) }

  /** The counts `days` days later. */
  function Shifted(counts: seq<int>, days: int): (r: seq<int>)
    ensures |r| == |counts|
  {
    if days <= 0 then counts
    else if days >= |counts| then Zeros(|counts|)
    else Zeros(days) + counts[..|counts| - days]
  }

  function Rotated(c: Counter, now: int): Counter {
    Counter(Shifted(c.counts, now - c.last), now)
  }

  function Add(c: Counter, n: int): Counter
    requires c.counts != []
  {
    c.(counts := c.counts[0 := Wrap(c.counts[0] + n)])
  }

  function Apply(c: Counter, op: Op): (r: Counter)
    requires c.counts != []
    ensures |r.counts| == |c.counts|
  {
    match op
    case Inc(n, now) => Add(Rotated(c, now), n)
    case Dec(n, now) => Add(Rotated(c, now), -n)
    case Read(now) => Rotated(c, now)
    case Clear => c.(counts := Zeros(|c.counts|))
  }

  function Reserved(reserveDays: int): nat { if reserveDays <= 0 then 1 else reserveDays }

  function NewCounter(reserveDays: int, now: int): Counter { Counter(Zeros(Reserved(reserveDays)), now) }

  function Run(c: Counter, ops: seq<Op>): (r: Counter)
    requires c.counts != []
    ensures |r.counts| == |c.counts|
  {
    if ops == [] then c else Apply(Run(c, ops[..|ops| - 1]), ops[|ops| - 1])
  }

  /** Rotating on the way, at any date in between, changes nothing. */
  lemma RotateTwice(c: Counter, mid: int, now: int)
    requires c.last <= mid <= now
    ensures Rotated(Rotated(c, mid), now) == Rotated(c, now)
  {
    ShiftTwice(c.counts, mid - c.last, now - mid);
  }

  lemma ShiftTwice(counts: seq<int>, d: nat, e: nat)
    ensures Shifted(Shifted(counts, d), e) == Shifted(counts, d + e)
  {
    forall i | 0 <= i < |counts| ensures Shifted(Shifted(counts, d), e)[i] == Shifted(counts, d + e)[i] {
      ShiftedAt(counts, d + e, i);
      ShiftedAt(Shifted(counts, d), e, i);
      if i >= e { ShiftedAt(counts, d, i - e); }
    }
  }

  lemma ShiftedAt(counts: seq<int>, days: nat, i: nat)
    requires i < |counts|
    ensures Shifted(counts, days)[i] == if i < days then 0 else counts[i - days]
  {
  }

  // ---------------------------------------------------------------- the full log

  /** An amount and the day it belongs to. */
  datatype Entry = Entry(day: int, n: int)

  /** Everything that was counted since the last clear. `day` is the day reached: it advances with
      the clock and stays when the clock goes back; `last` is what the clock said last. */
  datatype Full = Full(log: seq<Entry>, day: int, last: int)

  function Total(log: seq<Entry>, day: int): int {
    if log == [] then 0
    else Total(log[..|log| - 1], day) + if log[|log| - 1].day == day then log[|log| - 1].n else 0
  }

  function Advanced(f: Full, now: int): Full {
    Full(f.log, if now > f.last then f.day + (now - f.last) else f.day, now)
  }

  function Logged(f: Full, n: int): Full {
    f.(log := f.log + [Entry(f.day, n)])
  }

  function ApplyFull(f: Full, op: Op): Full {
    match op
    case Inc(n, now) => Logged(Advanced(f, now), n)
    case Dec(n, now) => Logged(Advanced(f, now), -n)
    case Read(now) => Advanced(f, now)
    case Clear => f.(log := [])
  }

  function RunFull(start: int, ops: seq<Op>): Full {
    if ops == [] then Full([], start, start) else ApplyFull(RunFull(start, ops[..|ops| - 1]), ops[|ops| - 1])
  }

  lemma TotalAppend(log: seq<Entry>, e: Entry, day: int)
    ensures Total(log + [e], day) == Total(log, day) + if e.day == day then e.n else 0
  {
    assert (log + [e])[..|log|] == log;
  }

  lemma {:induction false} NothingLater(log: seq<Entry>, day: int)
    requires forall k | 0 <= k < |log| :: log[k].day < day
    ensures Total(log, day) == 0
  {
    if log != [] { NothingLater(log[..|log| - 1], day); }
  }

  /** The counter shows the log. */
  predicate Shows(c: Counter, f: Full) {
    && c.last == f.last
    && (forall k | 0 <= k < |f.log| :: f.log[k].day <= f.day)
    && forall i | 0 <= i < |c.counts| :: c.counts[i] == Wrap(Total(f.log, f.day - i))
  }

  /** Count `i` of a counter that shows the log, for the day it stands for. */
  lemma ShownAs(c: Counter, f: Full, i: nat, day: int, n: int)
    requires Shows(c, f) && i < |c.counts| && f.day - i == day && Total(f.log, day) == n
    ensures c.last == f.last && c.counts[i] == Wrap(n)
  {
  }

  lemma RotateShows(c: Counter, f: Full, now: int)
    requires Shows(c, f)
    ensures Shows(Rotated(c, now), Advanced(f, now))
  {
    var r, g := Rotated(c, now), Advanced(f, now);
    forall i | 0 <= i < |r.counts| ensures r.counts[i] == Wrap(Total(g.log, g.day - i)) {
      if now > c.last {
        ShiftedAt(c.counts, now - c.last, i);
        if i < now - c.last { NothingLater(f.log, g.day - i); }
      }
    }
  }

  lemma AddShows(c: Counter, f: Full, n: int)
    requires Shows(c, f) && c.counts != []
    ensures Shows(Add(c, n), Logged(f, n))
  {
    var r, g := Add(c, n), Logged(f, n);
    forall i | 0 <= i < |r.counts| ensures r.counts[i] == Wrap(Total(g.log, g.day - i)) {
      TotalAppend(f.log, Entry(f.day, n), g.day - i);
      if i == 0 { WrapAdd(Total(f.log, f.day), n); }
    }
  }

  /** Each operation does to the counter what it does to the log. */
  lemma StepShows(c: Counter, f: Full, op: Op)
    requires Shows(c, f) && c.counts != []
    ensures Shows(Apply(c, op), ApplyFull(f, op))
  {
    match op
    case Inc(x, now) =>
      RotateShows(c, f, now);
      AddShows(Rotated(c, now), Advanced(f, now), x);
    case Dec(x, now) =>
      RotateShows(c, f, now);
      AddShows(Rotated(c, now), Advanced(f, now), -x);
    case Read(now) => RotateShows(c, f, now);
    case Clear => ClearShows(c, f);
  }

  lemma ClearShows(c: Counter, f: Full)
    requires Shows(c, f)
    ensures Shows(c.(counts := Zeros(|c.counts|)), f.(log := []))
  {
  }

  /** After any operations at any readings of the clock, count `i` is the 64-bit sum of what was counted
      `i` days before the day reached, since the last clear. */
  lemma {:induction false} RunShows(reserveDays: int, start: int, ops: seq<Op>)
    ensures Shows(Run(NewCounter(reserveDays, start), ops), RunFull(start, ops))
  {
    if ops != [] {
      var n := |ops| - 1;
      RunShows(reserveDays, start, ops[..n]);
      StepShows(Run(NewCounter(reserveDays, start), ops[..n]), RunFull(start, ops[..n]), ops[n]);
    }
  }

  // ---------------------------------------------------------------- clocks that do not go back

  function Reading(op: Op, last: int): int { if op.Clear? then last else op.now }

  /** What the clock said last. */
  function LastReading(start: int, ops: seq<Op>): int {
    if ops == [] then start else Reading(ops[|ops| - 1], LastReading(start, ops[..|ops| - 1]))
  }

  predicate Nondecreasing(start: int, ops: seq<Op>) {
    ops == [] ||
    (var n := |ops| - 1;
     Nondecreasing(start, ops[..n]) && LastReading(start, ops[..n]) <= Reading(ops[n], LastReading(start, ops[..n])))
  }

  /** What was counted on `day` since the last clear, going by the clock. */
  function CountedOn(ops: seq<Op>, day: int): int {
    if ops == [] then 0
    else
      var before := CountedOn(ops[..|ops| - 1], day);
      match ops[|ops| - 1]
      case Inc(n, now) => if now == day then before + n else before
      case Dec(n, now) => if now == day then before - n else before
      case Read(_) => before
      case Clear => 0
  }

  lemma {:induction false} FullByClock(start: int, ops: seq<Op>, day: int)
    requires Nondecreasing(start, ops)
    ensures var f := RunFull(start, ops);
            f.day == f.last == LastReading(start, ops) && Total(f.log, day) == CountedOn(ops, day)
  {
    if ops != [] {
      var n := |ops| - 1;
      FullByClock(start, ops[..n], day);
      var g := RunFull(start, ops[..n]);
      match ops[n]
      case Inc(x, now) => TotalAppend(g.log, Entry(Advanced(g, now).day, x), day);
      case Dec(x, now) => TotalAppend(g.log, Entry(Advanced(g, now).day, -x), day);
      case _ =>
    }
  }

  /** With a clock that does not go back, count `i` is the 64-bit sum of what was counted `i` days
      before the last reading, since the last clear. */
  lemma CountsTheDays(reserveDays: int, start: int, ops: seq<Op>, i: nat)
    requires Nondecreasing(start, ops) && i < Reserved(reserveDays)
    ensures var c := Run(NewCounter(reserveDays, start), ops);
            && c.last == LastReading(start, ops) && |c.counts| == (if reserveDays >= 1 then reserveDays else 1)
            && c.counts[i] == Wrap(CountedOn(ops, c.last - i))
  {
    var day := LastReading(start, ops) - i;
    RunShows(reserveDays, start, ops);
    FullByClock(start, ops, day);
    ShownAs(Run(NewCounter(reserveDays, start), ops), RunFull(start, ops), i, day, CountedOn(ops, day));
  }

  lemma WrapCancel(a: int, b: int, n: int)
    ensures Wrap(a + n) == Wrap(b + n) <==> Wrap(a) == Wrap(b)
  {
    WrapAdd(a, n);
    WrapAdd(b, n);
    WrapAdd(a + n, -n);
    WrapAdd(b + n, -n);
  }

  /** What an operation adds to the day that it finds on the clock. */
  function Amount(op: Op): int {
    match op
    case Inc(n, _) => n
    case Dec(n, _) => -n
    case _ => 0
  }

  lemma CountedNext(ops: seq<Op>, op: Op, day: int)
    requires !op.Clear?
    ensures CountedOn(ops + [op], day) == CountedOn(ops, day) + if op.now == day then Amount(op) else 0
  {
    assert (ops + [op])[..|ops|] == ops;
  }

  /** A clock that has gone back shifts nothing. */
  lemma BackwardApply(c: Counter, op: Op, i: nat, n: int)
    requires !op.Clear? && op.now < c.last && i < |c.counts| && c.counts[i] == Wrap(n)
    ensures Apply(c, op).counts[i] == Wrap(n + if i == 0 then Amount(op) else 0)
  {
    WrapAdd(n, Amount(op));
  }

  /** The count after an operation that finds the clock gone back. */
  lemma BackwardCount(reserveDays: int, start: int, ops: seq<Op>, op: Op, i: nat)
    requires Nondecreasing(start, ops) && !op.Clear? && op.now < LastReading(start, ops) && i < Reserved(reserveDays)
    ensures Run(NewCounter(reserveDays, start), ops + [op]).counts[i]
         == Wrap(CountedOn(ops, LastReading(start, ops) - i) + if i == 0 then Amount(op) else 0)
  {
    var c, n := Run(NewCounter(reserveDays, start), ops), CountedOn(ops, LastReading(start, ops) - i);
    CountsTheDays(reserveDays, start, ops, i);
    assert (ops + [op])[..|ops|] == ops;
    BackwardApply(c, op, i, n);
  }

  /** `op` reads the clock, as every operation but a clear does, and then count `i` is the sum of
      what was counted `i` days before, as the clock now has it. */
  predicate RightAfter(reserveDays: int, start: int, ops: seq<Op>, op: Op, i: nat)
    requires !op.Clear? && i < Reserved(reserveDays)
  {
    Run(NewCounter(reserveDays, start), ops + [op]).counts[i] == Wrap(CountedOn(ops + [op], op.now - i))
  }

  /** The first time that the clock has gone back, count `i` stays right if and only if the sums of the
      day it stood for and of the day it now stands for agree. */
  lemma BackwardExactly(reserveDays: int, start: int, ops: seq<Op>, op: Op, i: nat)
    requires Nondecreasing(start, ops) && !op.Clear? && op.now < LastReading(start, ops) && i < Reserved(reserveDays)
    ensures RightAfter(reserveDays, start, ops, op, i)
            <==> Wrap(CountedOn(ops, LastReading(start, ops) - i)) == Wrap(CountedOn(ops, op.now - i))
  {
    var n := if i == 0 then Amount(op) else 0;
    BackwardCount(reserveDays, start, ops, op, i);
    CountedNext(ops, op, op.now - i);
    WrapCancel(CountedOn(ops, LastReading(start, ops) - i), CountedOn(ops, op.now - i), n);
  }

  /** With a clock that goes back a day, two days share a count. */
  lemma BackwardClockMixes()
    ensures var ops := [Inc(1, 10), Inc(1, 9)];
            !Nondecreasing(10, ops) && CountedOn(ops, 9) == 1 && Run(NewCounter(2, 10), ops) == Counter([2, 0], 9)
  {
    var ops := [Inc(1, 10), Inc(1, 9)];
    assert ops[..1] == [Inc(1, 10)] && ops[..1][..0] == [];
    var c0 := NewCounter(2, 10);
    assert c0.counts == [0, 0];
    assert Run(c0, []) == c0;
    assert Run(c0, [Inc(1, 10)]) == Apply(c0, Inc(1, 10)) == Counter([1, 0], 10);
    assert Run(c0, ops) == Apply(Counter([1, 0], 10), Inc(1, 9));
    assert LastReading(10, [Inc(1, 10)]) == 10;
    assert CountedOn([], 9) == 0 && CountedOn([Inc(1, 10)], 9) == 0;
  }

  // ---------------------------------------------------------------- the object

  class StandardDateCounter {
    const reserveDays: int
    var counts: array<int>
    var lastUpdateDate: int

    predicate Valid()
      reads this
    {
      reserveDays >= 1 && counts.Length == reserveDays
    }

    function Value(): Counter
      reads this, counts
    {
      Counter(counts[..], lastUpdateDate)
    }

    constructor (reserveDays: int, now: int)
      ensures Valid() && fresh(counts) && Value() == NewCounter(reserveDays, now)
      ensures this.reserveDays == if reserveDays >= 1 then reserveDays else 1
    {
      var days := if reserveDays <= 0 then 1 else reserveDays;
      this.reserveDays := days;
      counts := new int[days](_ => 0);
      lastUpdateDate := now;
    }

    method Rotate(now: int)
      requires Valid()
      modifies this
      ensures Valid() && Value() == Rotated(old(Value()), now)
      ensures counts == old(counts) || fresh(counts)
    {
      var days := now - lastUpdateDate;
      lastUpdateDate := now;
      if days <= 0 {
        return;
      } else if days >= reserveDays {
        counts := new int[reserveDays](_ => 0);
        return;
      }
      var newCounts := new int[reserveDays](_ => 0);
      var i := days;
      while i < reserveDays
        invariant days <= i <= reserveDays && counts == old(counts) && fresh(newCounts)
        invariant forall j | 0 <= j < days :: newCounts[j] == 0
        invariant forall j | days <= j < i :: newCounts[j] == counts[j - days]
        modifies newCounts
      {
        newCounts[i] := counts[i - days];
        i := i + 1;
      }
      counts := newCounts;
      assert counts[..] == Shifted(old(counts[..]), days);
    }

    method TodayCount(now: int) returns (n: int)
      requires Valid()
      modifies this
      ensures Valid() && Value() == Apply(old(Value()), Read(now))
      ensures counts == old(counts) || fresh(counts)
      ensures n == counts[0]
    {
      Rotate(now);
      n := counts[0];
    }

    /** The counts of the last days, no more than are kept; a negative number of days panics. */
    method GetLastDaysCount(lastdays: int, now: int) returns (r: seq<int>, panics: bool)
      requires Valid()
      modifies this
      ensures Valid() && (counts == old(counts) || fresh(counts))
      ensures panics == (lastdays < 0)
      ensures panics ==> Value() == old(Value())
      ensures !panics ==> Value() == Apply(old(Value()), Read(now))
      ensures !panics ==> r == counts[..if lastdays > reserveDays then reserveDays else lastdays]
    {
      var days := if lastdays > reserveDays then reserveDays else lastdays;
      if days < 0 { return [], true; }
      var copy := new int[days](_ => 0);
      Rotate(now);
      var i := 0;
      while i < days
        invariant 0 <= i <= days && copy[..i] == counts[..i]
        modifies copy
      {
        copy[i] := counts[i];
        i := i + 1;
      }
      return copy[..], false;
    }

    method Inc(n: int, now: int)
      requires Valid()
      modifies this, counts
      ensures Valid() && Value() == Apply(old(Value()), Op.Inc(n, now))
      ensures counts == old(counts) || fresh(counts)
    {
      Rotate(now);
      counts[0] := Wrap(counts[0] + n);
    }

    method Dec(n: int, now: int)
      requires Valid()
      modifies this, counts
      ensures Valid() && Value() == Apply(old(Value()), Op.Dec(n, now))
      ensures counts == old(counts) || fresh(counts)
    {
      Rotate(now);
      counts[0] := Wrap(counts[0] - n);
    }

    method Clear()
      requires Valid()
      modifies counts
      ensures Valid() && Value() == Apply(old(Value()), Op.Clear)
    {
      var i := 0;
      while i < reserveDays
        invariant 0 <= i <= reserveDays && forall j | 0 <= j < i :: counts[j] == 0
      {
        counts[i] := 0;
        i := i + 1;
      }
      assert counts[..] == Zeros(|old(counts[..])|);
    }
  }
}
