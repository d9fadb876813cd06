/** Date chains: the three loops the projection engine is built from, stated
    once for any step that always moves forward in time.
    - `FastForward`: step until the date is no longer before `fromDate`;
    - `Emit`: collect dates while they are on or before `eff`, stopping at
      the first one after an optional end date;
    - `Take`: collect at most `n` dates, stopping after the end date. */
module Chains {
  import opened Calendar
  import opened Domain

  /** Every step lands strictly later. */
  ghost predicate Advances(step: Date -> Date) {
    forall c :: Before(c, step(c))
  }

  /** The `k`-th date after `c` (`c` itself for k = 0). */
  function Iterate(c: Date, step: Date -> Date, k: nat): Date
    decreases k
  {
    if k == 0 then c else Iterate(step(c), step, k - 1)
  }

  lemma {:induction false} IterateShift(c: Date, step: Date -> Date, a: nat, b: nat)
    ensures Iterate(c, step, a + b) == Iterate(Iterate(c, step, a), step, b)
    decreases a
  {
    if a > 0 {
      IterateShift(step(c), step, a - 1, b);
    }
  }

  /** A chain of an advancing step is strictly increasing. */
  lemma {:induction false} IterateIncreasing(c: Date, step: Date -> Date, i: nat, j: nat)
    requires Advances(step) && i < j
    ensures Before(Iterate(c, step, i), Iterate(c, step, j))
    decreases j
  {
    if i == 0 {
      if j > 1 {
        IterateIncreasing(step(c), step, 0, j - 1);
      }
    } else {
      IterateIncreasing(step(c), step, i - 1, j - 1);
    }
  }

  /** Steps from `c` while the date is before `fromDate`. */
  function FastForward(c: Date, step: Date -> Date, fromDate: Date): (f: Date)
    requires Advances(step)
    ensures OnOrBefore(fromDate, f) && OnOrBefore(c, f)
    decreases DayNumber(fromDate) - DayNumber(c)
  {
    if Before(c, fromDate) then FastForward(step(c), step, fromDate) else c
  }

  /** The number of steps `FastForward` takes. */
  function FastForwardSteps(c: Date, step: Date -> Date, fromDate: Date): nat
    requires Advances(step)
    decreases DayNumber(fromDate) - DayNumber(c)
  {
    if Before(c, fromDate) then 1 + FastForwardSteps(step(c), step, fromDate) else 0
  }

  /** `FastForward` is the first chain date that is not before `fromDate`. */
  lemma {:induction false} FastForwardIsFirstReached(c: Date, step: Date -> Date, fromDate: Date)
    requires Advances(step)
    ensures FastForward(c, step, fromDate) == Iterate(c, step, FastForwardSteps(c, step, fromDate))
    ensures forall j: nat :: j < FastForwardSteps(c, step, fromDate) ==> Before(Iterate(c, step, j), fromDate)
    decreases DayNumber(fromDate) - DayNumber(c)
  {
    if Before(c, fromDate) {
      var n := step(c);
      FastForwardIsFirstReached(n, step, fromDate);
      forall j: nat | j < FastForwardSteps(c, step, fromDate)
        ensures Before(Iterate(c, step, j), fromDate)
      {
        if j > 0 {
          assert Iterate(c, step, j) == Iterate(n, step, j - 1);
        }
      }
    }
  }

  /** `d` passes neither `eff` nor the end date, when there is one. */
  predicate InBounds(d: Date, eff: Date, endDate: Option<Date>) {
    OnOrBefore(d, eff) && (endDate.None? || OnOrBefore(d, endDate.value))
  }

  /** The generation loop: dates from `c` up to `eff`, stopping at the first
      one after `endDate`. */
  function Emit(c: Date, step: Date -> Date, eff: Date, endDate: Option<Date>): seq<Date>
    requires Advances(step)
    decreases DayNumber(eff) - DayNumber(c) + 1
  {
    if !OnOrBefore(c, eff) then []
    else if endDate.Some? && Before(endDate.value, c) then []
    else [c] + Emit(step(c), step, eff, endDate)
  }

  /** Two steps that agree on every date fast-forward to the same date. */
  lemma {:induction false} FastForwardSameSteps(c: Date, s1: Date -> Date, s2: Date -> Date, fromDate: Date)
    requires Advances(s1) && Advances(s2) && forall d :: s1(d) == s2(d)
    ensures FastForward(c, s1, fromDate) == FastForward(c, s2, fromDate)
    decreases DayNumber(fromDate) - DayNumber(c)
  {
    if Before(c, fromDate) {
      FastForwardSameSteps(s1(c), s1, s2, fromDate);
    }
  }

  /** Two steps that agree on every date emit the same dates. */
  lemma {:induction false} EmitSameSteps(c: Date, s1: Date -> Date, s2: Date -> Date, eff: Date, endDate: Option<Date>)
    requires Advances(s1) && Advances(s2) && forall d :: s1(d) == s2(d)
    ensures Emit(c, s1, eff, endDate) == Emit(c, s2, eff, endDate)
    decreases DayNumber(eff) - DayNumber(c) + 1
  {
    if OnOrBefore(c, eff) && !(endDate.Some? && Before(endDate.value, c)) {
      EmitSameSteps(s1(c), s1, s2, eff, endDate);
    }
  }

  /** Every emitted date is a chain date within the bounds. */
  lemma {:induction false} EmitSound(c: Date, step: Date -> Date, eff: Date, endDate: Option<Date>, d: Date) returns (k: nat)
    requires Advances(step) && d in Emit(c, step, eff, endDate)
    ensures d == Iterate(c, step, k) && InBounds(d, eff, endDate)
    decreases DayNumber(eff) - DayNumber(c) + 1
  {
    var n := step(c);
    assert Emit(c, step, eff, endDate) == [c] + Emit(n, step, eff, endDate);
    if d == c {
      k := 0;
    } else {
      var k' := EmitSound(n, step, eff, endDate, d);
      k := k' + 1;
    }
  }

  /** Every chain date within the bounds is emitted. */
  lemma {:induction false} EmitComplete(c: Date, step: Date -> Date, eff: Date, endDate: Option<Date>, k: nat)
    requires Advances(step) && InBounds(Iterate(c, step, k), eff, endDate)
    ensures Iterate(c, step, k) in Emit(c, step, eff, endDate)
    decreases k
  {
    if k > 0 {
      IterateIncreasing(c, step, 0, k);
      var n := step(c);
      assert Emit(c, step, eff, endDate) == [c] + Emit(n, step, eff, endDate);
      EmitComplete(n, step, eff, endDate, k - 1);
    }
  }

  /** In a list of a chain's first dates, each date is the step of the one before. */
  lemma ChainSuccessor(ds: seq<Date>, c: Date, step: Date -> Date)
    requires forall i :: 0 <= i < |ds| ==> ds[i] == Iterate(c, step, i)
    ensures forall i :: 0 <= i < |ds| - 1 ==> ds[i + 1] == step(ds[i])
  {
    forall i | 0 <= i < |ds| - 1
      ensures ds[i + 1] == step(ds[i])
    {
      IterateShift(c, step, i, 1);
      assert Iterate(ds[i], step, 1) == step(ds[i]);
    }
  }

  /** Emitted dates are the chain's first dates, in strictly increasing order. */
  lemma {:induction false} EmitChain(c: Date, step: Date -> Date, eff: Date, endDate: Option<Date>)
    requires Advances(step)
    ensures var ds := Emit(c, step, eff, endDate);
      (forall i :: 0 <= i < |ds| ==> ds[i] == Iterate(c, step, i)) &&
      (forall i, j :: 0 <= i < j < |ds| ==> Before(ds[i], ds[j]))
    decreases DayNumber(eff) - DayNumber(c) + 1
  {
    var ds := Emit(c, step, eff, endDate);
    if |ds| > 0 {
      var n := step(c);
      EmitChain(n, step, eff, endDate);
      forall i | 0 <= i < |ds|
        ensures ds[i] == Iterate(c, step, i)
      {
        if i > 0 {
          assert ds[i] == Emit(n, step, eff, endDate)[i - 1];
        }
      }
      forall i, j | 0 <= i < j < |ds|
        ensures Before(ds[i], ds[j])
      {
        IterateIncreasing(c, step, i, j);
      }
    }
  }

  /** The `k`-th date is the `(k - m)`-th after the `m`-th. */
  lemma IterateSplit(c: Date, step: Date -> Date, m: nat, k: nat)
    requires m <= k
    ensures Iterate(c, step, k) == Iterate(Iterate(c, step, m), step, k - m)
  {
    IterateShift(c, step, m, k - m);
  }

  /** Fast-forwarding to `fromDate` and then emitting yields exactly the
      chain dates from `a` that are on or after `fromDate` and within the
      bounds: the sound half. */
  lemma WindowSound(a: Date, step: Date -> Date, fromDate: Date, eff: Date, endDate: Option<Date>, d: Date)
    returns (k: nat)
    requires Advances(step) && d in Emit(FastForward(a, step, fromDate), step, eff, endDate)
    ensures d == Iterate(a, step, k) && OnOrBefore(fromDate, d) && InBounds(d, eff, endDate)
  {
    var f := FastForward(a, step, fromDate);
    var steps := FastForwardSteps(a, step, fromDate);
    FastForwardIsFirstReached(a, step, fromDate);
    var j := EmitSound(f, step, eff, endDate, d);
    IterateShift(a, step, steps, j);
    if j > 0 {
      IterateIncreasing(f, step, 0, j);
    }
    k := steps + j;
  }

  /** The complete half of `WindowSound`. */
  lemma WindowComplete(a: Date, step: Date -> Date, fromDate: Date, eff: Date, endDate: Option<Date>, k: nat)
    requires Advances(step)
    requires OnOrBefore(fromDate, Iterate(a, step, k)) && InBounds(Iterate(a, step, k), eff, endDate)
    ensures Iterate(a, step, k) in Emit(FastForward(a, step, fromDate), step, eff, endDate)
  {
    var f := FastForward(a, step, fromDate);
    var steps := FastForwardSteps(a, step, fromDate);
    FastForwardIsFirstReached(a, step, fromDate);
    if k < steps {
      assert false;
    }
    IterateSplit(a, step, steps, k);
    EmitCompleteAt(f, step, eff, endDate, k - steps, Iterate(a, step, k));
  }

  /** `EmitComplete` for a date already known to be the `j`-th of the chain. */
  lemma EmitCompleteAt(c: Date, step: Date -> Date, eff: Date, endDate: Option<Date>, j: nat, d: Date)
    requires Advances(step) && d == Iterate(c, step, j) && InBounds(d, eff, endDate)
    ensures d in Emit(c, step, eff, endDate)
  {
    EmitComplete(c, step, eff, endDate, j);
  }

  /** The preview loop: at most `n` dates from `c`, stopping at the first one
      after `endDate`. */
  function Take(c: Date, step: Date -> Date, n: int, endDate: Option<Date>): seq<Date>
    decreases n
  {
    if n <= 0 then []
    else if endDate.Some? && Before(endDate.value, c) then []
    else [c] + Take(step(c), step, n - 1, endDate)
  }

  /** `Take` yields the chain's first dates: all of the first `n` when none
      passes the end date, otherwise exactly those before the first that does. */
  lemma {:induction false} TakeChain(c: Date, step: Date -> Date, n: int, endDate: Option<Date>)
    ensures var ds := Take(c, step, n, endDate);
      |ds| <= (if n < 0 then 0 else n) &&
      (forall i :: 0 <= i < |ds| ==> ds[i] == Iterate(c, step, i)) &&
      (forall i :: 0 <= i < |ds| ==> endDate.None? || OnOrBefore(ds[i], endDate.value)) &&
      (|ds| < n ==> endDate.Some? && Before(endDate.value, Iterate(c, step, |ds|)))
    decreases n
  {
    var ds := Take(c, step, n, endDate);
    if |ds| > 0 {
      var next := step(c);
      TakeChain(next, step, n - 1, endDate);
      forall i | 0 <= i < |ds|
        ensures ds[i] == Iterate(c, step, i)
      {
        if i > 0 {
          assert ds[i] == Take(next, step, n - 1, endDate)[i - 1];
        }
      }
    }
  }

  /** A chain that is out of count or past its end date takes nothing more. */
  lemma TakeStops(c: Date, step: Date -> Date, n: int, endDate: Option<Date>)
    requires n <= 0 || (endDate.Some? && Before(endDate.value, c))
    ensures Take(c, step, n, endDate) == []
  {
  }

  /** Taking one more date moves it from the chain to the list already taken. */
  lemma TakeCons(done: seq<Date>, c: Date, step: Date -> Date, n: int, endDate: Option<Date>)
    requires n > 0 && !(endDate.Some? && Before(endDate.value, c))
    ensures done + Take(c, step, n, endDate) == (done + [c]) + Take(step(c), step, n - 1, endDate)
  {
    ConsShift(done, c, Take(step(c), step, n - 1, endDate));
  }

  /** Moving the head of the pending part to the end of the done part. */
  lemma ConsShift<T>(done: seq<T>, x: T, rest: seq<T>)
    ensures (done + [x]) + rest == done + ([x] + rest)
  {
  }
}
