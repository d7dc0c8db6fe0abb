/**
 * Sequence helpers and the curve wrappers the hit objects are sampled from.
 *
 * A curve wrapper is modelled as a `Curve` value: a straight line, a circular
 * arc, or a stream of precomputed Bezier points handed out one per call. The
 * numeric work this model does not define (square root, atan2, cosine, sine,
 * the evenly spaced Bezier sampler and its length estimate) is supplied as a
 * `Numerics` value.
 */
module Utils {
  import opened Builtins
  import opened Pixels

  // ---------------------------------------------------------------------------
  // Angles of a circular arc
  // ---------------------------------------------------------------------------

  /** `math.pi` as a float. */
  const Pi: real := 3.141592653589793

  /** True for an angle in one turn starting at zero, as the normalised atan2 angles are. */
  predicate InTurn(a: real)
  {
    0.0 <= a < 2.0 * Pi
  }

  /** True when `m` lies between `a` and `b`, in either order. */
  predicate Between(a: real, m: real, b: real)
  {
    (a <= m <= b) || (b <= m <= a)
  }

  function Abs(x: real): (r: real)
    ensures r >= 0.0 && (r == x || r == -x)
  {
    if x < 0.0 then -x else x
  }

  /** An atan2 result moved into [0, 2*pi) by adding a full turn to a negative angle. */
  function NormalizeAngle(a: real): (r: real)
    ensures r == a || r == a + 2.0 * Pi
    ensures -Pi < a <= Pi ==> InTurn(r)
  {
    if a >= 0.0 then a else a + 2.0 * Pi
  }

  /**
   * The three angles of an arc (start, middle, end), corrected so that the
   * middle one lies between the other two, and the fractions of the sweep on
   * either side of the middle.
   */
  datatype AngleSequence = AngleSequence(head: real, check: real, tail: real, length: real, steps: (real, real))

  /**
   * The end angles after the wrap-around correction: when the middle angle is
   * below both ends, the larger end is moved down a turn; when it is above
   * both, the smaller end is moved up a turn. At most one end moves.
   */
  function Unwrapped(a0: real, a1: real, a2: real): (r: (real, real))
    ensures r.0 == a0 || r.0 == a0 - 2.0 * Pi || r.0 == a0 + 2.0 * Pi
    ensures r.1 == a2 || r.1 == a2 - 2.0 * Pi || r.1 == a2 + 2.0 * Pi
    ensures r.0 == a0 || r.1 == a2
    ensures r.0 == a1 && r.1 == a1 <==> a0 == a1 && a1 == a2
    ensures InTurn(a0) && InTurn(a1) && InTurn(a2) ==> Between(r.0, a1, r.1)
    ensures InTurn(a0) && InTurn(a1) && InTurn(a2) ==> Abs(r.0 - a1) + Abs(a1 - r.1) <= 2.0 * Pi
  {
    if a0 > a1 && a1 < a2 then
      (if a0 > a2 then (a0 - 2.0 * Pi, a2) else (a0, a2 - 2.0 * Pi))
    else if a0 < a1 && a1 > a2 then
      (if a0 < a2 then (a0 + 2.0 * Pi, a2) else (a0, a2 + 2.0 * Pi))
    else (a0, a2)
  }

  /** `f` is the fraction `part` makes of `whole`. */
  predicate FractionOf(f: real, part: real, whole: real)
  {
    f * whole == part
  }

  /** Two non-negative parts of a positive whole, as fractions of it: both non-negative, adding up to one. */
  function Fractions(a: real, b: real): (r: (real, real))
    requires a >= 0.0 && b >= 0.0 && a + b > 0.0
    ensures r.0 >= 0.0 && r.1 >= 0.0 && r.0 + r.1 == 1.0
    ensures FractionOf(r.0, a, a + b)
  {
    var s := a + b;
    assert (a + b) / s == 1.0;
    assert a / s + b / s == (a + b) / s;
    (a / s, b / s)
  }

  /**
   * Builds the angle sequence from the three angles of an arc: the ends are
   * unwrapped, and the sweep is split at the middle angle. A sweep of zero
   * divides by zero.
   */
  function NewAngleSequence(a0: real, a1: real, a2: real): (r: Result<AngleSequence>)
    ensures r.Err? <==> a0 == a1 == a2
    ensures r.Err? ==> r.error == ZeroDivisionError
    ensures r.Ok? ==> var s := r.value;
      && s.check == a1
      && (s.head, s.tail) == Unwrapped(a0, a1, a2)
      && s.length == Abs(s.head - s.check) + Abs(s.check - s.tail) > 0.0
      && s.steps.0 >= 0.0 && s.steps.1 >= 0.0 && s.steps.0 + s.steps.1 == 1.0
      && FractionOf(s.steps.0, Abs(s.head - s.check), s.length)
    ensures r.Ok? && InTurn(a0) && InTurn(a1) && InTurn(a2) ==> Between(r.value.head, a1, r.value.tail)
  {
    var (head, tail) := Unwrapped(a0, a1, a2);
    var a2b, b2c := Abs(head - a1), Abs(a1 - tail);
    var length := a2b + b2c;
    ZeroSweep(head, a1, tail);
    if length == 0.0 then Err(ZeroDivisionError)
    else
      Ok(AngleSequence(head, a1, tail, length, Fractions(a2b, b2c)))
  }

  /** The sweep through the middle angle is zero exactly when all three angles coincide. */
  lemma ZeroSweep(head: real, check: real, tail: real)
    ensures Abs(head - check) + Abs(check - tail) == 0.0 <==> head == check && check == tail
  {
  }

  /** Linear interpolation from `start` (at 0) to `end` (at 1). */
  function GetByRange(t: real, start: real, end: real): (r: real)
    ensures t == 0.0 ==> r == start
    ensures t == 1.0 ==> r == end
    ensures 0.0 <= t <= 1.0 ==> Between(start, r, end)
    ensures r - start == t * (end - start)
  {
    LerpForms(t, start, end);
    LerpBetween(t, start, end);
    start * (1.0 - t) + end * t
  }

  /** The two ways of writing a linear interpolation agree. */
  lemma LerpForms(t: real, start: real, end: real)
    ensures start * (1.0 - t) + end * t - start == t * (end - start)
  {
  }

  /** Interpolating at a fraction in [0, 1] stays between the two ends. */
  lemma LerpBetween(t: real, start: real, end: real)
    ensures 0.0 <= t <= 1.0 ==> Between(start, start * (1.0 - t) + end * t, end)
  {
    if 0.0 <= t <= 1.0 {
      var d := end - start;
      var r := start * (1.0 - t) + end * t;
      LerpForms(t, start, end);
      assert r - start == t * d;
      FractionBounded(t, d);
      if d >= 0.0 {
        assert start <= r <= end;
      } else {
        assert end <= r <= start;
      }
    }
  }

  /** A fraction in [0, 1] of a span lies between zero and the span. */
  lemma FractionBounded(t: real, d: real)
    ensures 0.0 <= t <= 1.0 && d >= 0.0 ==> 0.0 <= t * d <= d
    ensures 0.0 <= t <= 1.0 && d <= 0.0 ==> d <= t * d <= 0.0
  {
    if 0.0 <= t <= 1.0 && d >= 0.0 {
      assert d - t * d == (1.0 - t) * d;
    }
    if 0.0 <= t <= 1.0 && d <= 0.0 {
      assert t * d - d == (1.0 - t) * -d;
    }
  }

  /**
   * The angle at parameter `t`: the first fraction of the parameter range
   * covers head to check, the rest check to tail. The parameter is a numpy
   * float, so rescaling it by an empty share raises nothing there: it yields
   * NaN or infinity, and the first thing to read that number (the cosine, or
   * the rounding of the sampled point) raises ValueError. The model reports
   * that ValueError here.
   */
  function GetT(s: AngleSequence, t: real): (r: Result<real>)
    ensures r.Err? ==> r.error == ValueError
    ensures t > s.steps.0 ==> (r.Ok? <==> s.steps.1 != 0.0)
    ensures t <= s.steps.0 ==> (r.Ok? <==> s.steps.0 != 0.0)
    ensures r.Ok? && t <= s.steps.0 ==> (r.value - s.head) * s.steps.0 == t * (s.check - s.head)
    ensures r.Ok? && t > s.steps.0 ==> (r.value - s.check) * s.steps.1 == (t - s.steps.0) * (s.tail - s.check)
  {
    if t > s.steps.0 then
      if s.steps.1 == 0.0 then Err(ValueError)
      else
        var u := (t - s.steps.0) / s.steps.1;
        ScaledBack(t - s.steps.0, s.steps.1, s.tail - s.check);
        Ok(GetByRange(u, s.check, s.tail))
    else
      if s.steps.0 == 0.0 then Err(ValueError)
      else
        ScaledBack(t, s.steps.0, s.check - s.head);
        Ok(GetByRange(t / s.steps.0, s.head, s.check))
  }

  /** A quotient times the span, times the divisor again, is the dividend times the span. */
  lemma ScaledBack(n: real, d: real, span: real)
    requires d != 0.0
    ensures (n / d) * span * d == n * span
  {
    assert (n / d) * d == n;
    assert (n / d) * span * d == ((n / d) * d) * span;
  }

  /**
   * At 0 the arc is at its first angle (unless the first span is empty), at
   * the split fraction at its middle angle, and at 1 at its last angle.
   */
  lemma GetTEnds(a0: real, a1: real, a2: real)
    requires NewAngleSequence(a0, a1, a2).Ok?
    ensures var s := NewAngleSequence(a0, a1, a2).value;
      && GetT(s, 1.0) == Ok(s.tail)
      && (s.steps.0 != 0.0 ==> GetT(s, 0.0) == Ok(s.head) && GetT(s, s.steps.0) == Ok(s.check))
  {
    var s := NewAngleSequence(a0, a1, a2).value;
    if s.steps.1 == 0.0 {
      NoSecondSpan(s.steps.0, Abs(s.head - s.check), Abs(s.check - s.tail));
    }
    SequenceEnds(s);
  }

  /** When the first span takes the whole parameter range, the second span is empty. */
  lemma NoSecondSpan(f0: real, a: real, b: real)
    requires FractionOf(f0, a, a + b) && f0 == 1.0 && b >= 0.0
    ensures b == 0.0
  {
  }

  /** The ends and the split point of an angle sequence whose fractions add up to one. */
  lemma SequenceEnds(s: AngleSequence)
    requires s.steps.0 >= 0.0 && s.steps.1 >= 0.0 && s.steps.0 + s.steps.1 == 1.0
    requires s.steps.1 == 0.0 ==> s.check == s.tail
    ensures GetT(s, 1.0) == Ok(s.tail)
    ensures s.steps.0 != 0.0 ==> GetT(s, 0.0) == Ok(s.head) && GetT(s, s.steps.0) == Ok(s.check)
  {
    var f0, f1 := s.steps.0, s.steps.1;
    UnitRatios(f0, f1);
  }

  /** The ratios the ends and the split point rescale to. */
  lemma UnitRatios(f0: real, f1: real)
    requires f0 >= 0.0 && f1 >= 0.0 && f0 + f1 == 1.0
    ensures f1 != 0.0 ==> (1.0 - f0) / f1 == 1.0
    ensures f0 != 0.0 ==> 0.0 / f0 == 0.0 && f0 / f0 == 1.0
    ensures f1 == 0.0 ==> f0 == 1.0 && 1.0 / f0 == 1.0
  {
  }

  /**
   * For angles read in [0, 2*pi), every parameter in [0, 1] lands on the arc
   * between the corrected end angles.
   */
  lemma GetTWithinArc(a0: real, a1: real, a2: real, t: real)
    requires InTurn(a0) && InTurn(a1) && InTurn(a2)
    requires NewAngleSequence(a0, a1, a2).Ok?
    requires 0.0 <= t <= 1.0
    requires NewAngleSequence(a0, a1, a2).value.steps.0 != 0.0
    ensures var s := NewAngleSequence(a0, a1, a2).value;
      GetT(s, t).Ok? && Between(s.head, GetT(s, t).value, s.tail)
  {
    var s := NewAngleSequence(a0, a1, a2).value;
    GetTBetween(s, t);
  }

  /**
   * An angle sequence whose middle angle lies between its ends, with a
   * non-empty first span, stays between its ends over the parameter range.
   */
  lemma GetTBetween(s: AngleSequence, t: real)
    requires Between(s.head, s.check, s.tail)
    requires s.steps.0 > 0.0 && s.steps.1 >= 0.0 && s.steps.0 + s.steps.1 == 1.0
    requires 0.0 <= t <= 1.0
    ensures GetT(s, t).Ok? && Between(s.head, GetT(s, t).value, s.tail)
  {
    UnitParameter(t, s.steps.0, s.steps.1);
  }

  /** The parameter in [0, 1] rescaled to the span it falls in stays in [0, 1]. */
  lemma UnitParameter(t: real, f0: real, f1: real)
    requires f0 > 0.0 && f1 >= 0.0 && f0 + f1 == 1.0 && 0.0 <= t <= 1.0
    ensures t > f0 ==> f1 > 0.0 && 0.0 <= (t - f0) / f1 <= 1.0
    ensures t <= f0 ==> 0.0 <= t / f0 <= 1.0
  {
    if t > f0 {
      assert t - f0 <= f1;
    }
  }

  // ---------------------------------------------------------------------------
  // Sequence helpers
  // ---------------------------------------------------------------------------

  /**
   * `until`: applies `action` to the items of the longest prefix whose items
   * all satisfy `cond`, stopping at the first that does not.
   */
  method Until<T, U>(action: T -> U, items: seq<T>, cond: T -> bool) returns (r: seq<U>)
    ensures |r| <= |items|
    ensures forall i :: 0 <= i < |r| ==> cond(items[i]) && r[i] == action(items[i])
    ensures |r| < |items| ==> !cond(items[|r|])
  {
    r := [];
    var i := 0;
    while i < |items|
      invariant i == |r| <= |items|
      invariant forall k :: 0 <= k < i ==> cond(items[k]) && r[k] == action(items[k])
    {
      if !cond(items[i]) {
        return;
      }
      r := r + [action(items[i])];
      i := i + 1;
    }
  }

  /** A tuple without its first element; empty stays empty. */
  function Rest<T>(s: seq<T>): (r: seq<T>)
    ensures s != [] ==> r == s[1..]
    ensures s == [] ==> r == []
  {
    if s == [] then [] else s[1..]
  }

  /**
   * `window(s, n)`: the first `n` items if there are that many, then one
   * tuple per remaining item, dropping the oldest and appending it. For
   * `n >= 1` these are the `|s| - n + 1` slices of length `n`; with `n == 0`
   * the first tuple is empty and each later one holds a single item.
   */
  method Window<T>(s: seq<T>, n: nat) returns (r: seq<seq<T>>)
    ensures n >= 1 && |s| >= n ==> |r| == |s| - n + 1 && forall i :: 0 <= i < |r| ==> r[i] == s[i..i + n]
    ensures n >= 1 && |s| < n ==> r == []
    ensures n == 0 ==> |r| == |s| + 1 && r[0] == [] && forall i :: 1 <= i < |r| ==> r[i] == [s[i - 1]]
  {
    var k := if n <= |s| then n else |s|;
    var result := s[..k];
    r := if |result| == n then [result] else [];
    var i := k;
    while i < |s|
      invariant k <= i <= |s|
      invariant |s| < n ==> i == |s| && r == []
      invariant n >= 1 && |s| >= n ==> SlidingWindows(s, n, i, result, r)
      invariant n == 0 ==> SingleWindows(s, i, result, r)
    {
      if n >= 1 {
        SlidingStep(s, n, i, result, r);
      } else {
        SingleStep(s, i, result, r);
      }
      result := Rest(result) + [s[i]];
      r := r + [result];
      i := i + 1;
    }
  }

  /** After item `i`, with `n >= 1`: one window per full slice so far, the last one being `result`. */
  ghost predicate SlidingWindows<T>(s: seq<T>, n: nat, i: nat, result: seq<T>, r: seq<seq<T>>)
  {
    && 1 <= n <= i <= |s| && |r| == i - n + 1 && result == s[i - n..i]
    && forall j :: 0 <= j < |r| ==> r[j] == s[j..j + n]
  }

  /** One more item slides the window by one. */
  lemma SlidingStep<T>(s: seq<T>, n: nat, i: nat, result: seq<T>, r: seq<seq<T>>)
    requires i < |s| && SlidingWindows(s, n, i, result, r)
    ensures SlidingWindows(s, n, i + 1, Rest(result) + [s[i]], r + [Rest(result) + [s[i]]])
  {
    var next := Rest(result) + [s[i]];
    assert next == s[i + 1 - n..i + 1];
    assert forall j :: 0 <= j < |r| ==> (r + [next])[j] == r[j];
  }

  /** After item `i`, with `n == 0`: an empty window, then each item alone. */
  ghost predicate SingleWindows<T>(s: seq<T>, i: nat, result: seq<T>, r: seq<seq<T>>)
  {
    && i <= |s| && |r| == i + 1 && r[0] == []
    && (i == 0 ==> result == []) && (i > 0 ==> result == [s[i - 1]])
    && forall j :: 1 <= j < |r| ==> r[j] == [s[j - 1]]
  }

  /** One more item makes a window of its own. */
  lemma SingleStep<T>(s: seq<T>, i: nat, result: seq<T>, r: seq<seq<T>>)
    requires i < |s| && SingleWindows(s, i, result, r)
    ensures SingleWindows(s, i + 1, Rest(result) + [s[i]], r + [Rest(result) + [s[i]]])
  {
    assert Rest(result) == [];
    assert forall j :: 0 <= j < |r| ==> (r + [[s[i]]])[j] == r[j];
  }

  /** No two neighbouring items are equal. */
  predicate NoAdjacentDuplicates<T(==)>(s: seq<T>)
  {
    forall i :: 0 < i < |s| ==> s[i] != s[i - 1]
  }

  /** The items of `s` with every item equal to its predecessor dropped. */
  function Deduplicated<T(==)>(s: seq<T>): seq<T>
  {
    if s == [] then []
    else if |s| >= 2 && s[|s| - 1] == s[|s| - 2] then Deduplicated(s[..|s| - 1])
    else Deduplicated(s[..|s| - 1]) + [s[|s| - 1]]
  }

  /** `unique`: drops each item equal to the one kept before it. */
  method Unique<T(==)>(items: seq<T>) returns (r: seq<T>)
    ensures r == Deduplicated(items)
    ensures |r| == |RunStarts(items)|
    ensures forall k :: 0 <= k < |r| ==> r[k] == items[RunStarts(items)[k]]
  {
    var prev: Option<T> := None;
    r := [];
    var i := 0;
    while i < |items|
      invariant 0 <= i <= |items|
      invariant r == Deduplicated(items[..i])
      invariant prev == if i == 0 then None else Some(items[i - 1])
    {
      var item := items[i];
      assert items[..i + 1][..i] == items[..i];
      if Some(item) == prev {
        i := i + 1;
        continue;
      }
      prev := Some(item);
      r := r + [item];
      i := i + 1;
    }
    assert items[..i] == items;
    DeduplicatedPicksRunStarts(items);
  }

  /** Deduplication keeps the first and the last item of a non-empty sequence. */
  lemma {:induction false} DeduplicatedEnds<T>(s: seq<T>)
    requires s != []
    ensures var d := Deduplicated(s); d != [] && d[0] == s[0] && d[|d| - 1] == s[|s| - 1]
  {
    if |s| >= 2 {
      DeduplicatedEnds(s[..|s| - 1]);
    }
  }

  /** The result of deduplication has no neighbouring duplicates. */
  lemma {:induction false} DeduplicatedHasNoAdjacentDuplicates<T>(s: seq<T>)
    ensures NoAdjacentDuplicates(Deduplicated(s))
  {
    if s != [] {
      DeduplicatedHasNoAdjacentDuplicates(s[..|s| - 1]);
      if |s| >= 2 {
        DeduplicatedEnds(s[..|s| - 1]);
      }
    }
  }

  /** A sequence without neighbouring duplicates is left unchanged. */
  lemma {:induction false} DeduplicatedFixpoint<T>(s: seq<T>)
    requires NoAdjacentDuplicates(s)
    ensures Deduplicated(s) == s
  {
    if s != [] {
      var init := s[..|s| - 1];
      assert NoAdjacentDuplicates(init) by {
        forall i | 0 < i < |init|
          ensures init[i] != init[i - 1]
        {
          assert init[i] == s[i] && init[i - 1] == s[i - 1];
        }
      }
      DeduplicatedFixpoint(init);
      if |s| >= 2 {
        assert s[|s| - 1] != s[|s| - 2];
      }
      assert s == init + [s[|s| - 1]];
    }
  }

  /** Deduplication neither loses nor invents items. */
  lemma {:induction false} DeduplicatedSameItems<T>(s: seq<T>, x: T)
    ensures x in Deduplicated(s) <==> x in s
  {
    if s != [] {
      var init := s[..|s| - 1];
      DeduplicatedSameItems(init, x);
      assert s == init + [s[|s| - 1]];
      if |s| >= 2 && s[|s| - 1] == s[|s| - 2] {
        assert s[|s| - 2] in init;
      }
    }
  }

  /** The positions where a new run of equal items begins: the first, and each that differs from its predecessor. */
  function RunStarts<T(==)>(s: seq<T>): (r: seq<nat>)
    ensures forall k :: 0 <= k < |r| ==> r[k] < |s|
  {
    if s == [] then []
    else if |s| >= 2 && s[|s| - 1] == s[|s| - 2] then RunStarts(s[..|s| - 1])
    else RunStarts(s[..|s| - 1]) + [|s| - 1]
  }

  /** Position `i` begins a run: it is the first, or differs from its predecessor. */
  predicate BeginsRun<T(==)>(s: seq<T>, i: nat)
    requires i < |s|
  {
    i == 0 || s[i] != s[i - 1]
  }

  /** The run starts are increasing positions of `s`, and a position is one exactly when it begins a run. */
  lemma {:induction false} RunStartsAreRunBeginnings<T>(s: seq<T>)
    ensures forall k, l :: 0 <= k < l < |RunStarts(s)| ==> RunStarts(s)[k] < RunStarts(s)[l]
    ensures forall i :: 0 <= i < |s| ==> (i in RunStarts(s) <==> BeginsRun(s, i))
  {
    if s != [] {
      var n := |s| - 1;
      var init := s[..n];
      RunStartsAreRunBeginnings(init);
      assert n !in RunStarts(init);
      forall i | 0 <= i < |s|
        ensures i in RunStarts(s) <==> BeginsRun(s, i)
      {
        var kept := n >= 1 && s[n] == s[n - 1];
        assert RunStarts(s) == if kept then RunStarts(init) else RunStarts(init) + [n];
        if i < n {
          assert init[i] == s[i];
          if i > 0 {
            assert init[i - 1] == s[i - 1];
          }
          assert BeginsRun(s, i) == BeginsRun(init, i);
          assert i in RunStarts(s) <==> i in RunStarts(init);
        } else {
          assert i == n;
          if kept {
            assert i !in RunStarts(s);
          } else {
            assert RunStarts(s)[|RunStarts(s)| - 1] == n;
          }
        }
      }
    }
  }

  /** Deduplication keeps exactly the item at each run start, in order. */
  lemma {:induction false} DeduplicatedPicksRunStarts<T>(s: seq<T>)
    ensures |Deduplicated(s)| == |RunStarts(s)|
    ensures forall k :: 0 <= k < |RunStarts(s)| ==> Deduplicated(s)[k] == s[RunStarts(s)[k]]
  {
    if s != [] {
      var n := |s| - 1;
      var init := s[..n];
      DeduplicatedPicksRunStarts(init);
      RunStartsAreRunBeginnings(init);
    }
  }

  /** The last item of a non-empty sequence. */
  function Last<T>(s: seq<T>): T
    requires s != []
  {
    s[|s| - 1]
  }

  /** Every piece is a non-empty run without repeats, and each begins with the item the one before it ends with. */
  predicate Chained<T(==)>(chunks: seq<seq<T>>)
  {
    && (forall k :: 0 <= k < |chunks| ==> chunks[k] != [] && NoAdjacentDuplicates(chunks[k]))
    && (forall k :: 0 < k < |chunks| ==> chunks[k][0] == Last(chunks[k - 1]))
  }

  /** A piece that continues the last one keeps the pieces chained. */
  lemma ChainedAppend<T>(chunks: seq<seq<T>>, piece: seq<T>)
    requires Chained(chunks) && piece != [] && NoAdjacentDuplicates(piece)
    requires chunks != [] ==> Last(chunks) != [] && piece[0] == Last(Last(chunks))
    ensures Chained(chunks + [piece])
  {
    var grown := chunks + [piece];
    forall k | 0 < k < |grown|
      ensures grown[k][0] == Last(grown[k - 1])
    {
      if k < |chunks| {
        assert grown[k] == chunks[k] && grown[k - 1] == chunks[k - 1];
      }
    }
  }

  /** A run without repeats extended by an item unlike its last stays without repeats. */
  lemma ExtendRun<T>(s: seq<T>, lo: nat, i: nat)
    requires lo <= i < |s| && NoAdjacentDuplicates(s[lo..i])
    requires i == lo || s[i] != s[i - 1]
    ensures NoAdjacentDuplicates(s[lo..i + 1])
  {
    var run := s[lo..i + 1];
    forall j | 0 < j < |run|
      ensures run[j] != run[j - 1]
    {
      if j < |run| - 1 {
        assert run[j] == s[lo..i][j] && run[j - 1] == s[lo..i][j - 1];
      }
    }
  }

  /**
   * `split_same`: cuts the sequence before every item equal to its
   * predecessor. Each piece is non-empty with no neighbouring duplicates, each
   * piece after the first starts with a copy of the previous piece's last
   * item, and a final piece of one item is not emitted. An empty input leaves
   * the loop variable unbound.
   */
  method SplitSame<T(==)>(s: seq<T>) returns (r: Result<seq<seq<T>>>)
    ensures s == [] <==> r.Err?
    ensures r.Err? ==> r.error == UnboundLocalError
    ensures r.Ok? ==> Chained(r.value)
    ensures r.Ok? ==> Flatten(r.value) == (if |s| == 1 || s[|s| - 1] == s[|s| - 2] then s[..|s| - 1] else s)
    ensures r == SplitPieces(s)
  {
    if s == [] {
      return Err(UnboundLocalError);
    }
    var chunks: seq<seq<T>> := [];
    var prevStart := 0;
    var i := 0;
    while i < |s|
      invariant SplitState(s, chunks, prevStart, i)
      invariant (chunks, prevStart) == SplitScan(s, i)
    {
      if i > 0 && s[i] == s[i - 1] {
        SplitCut(s, chunks, prevStart, i);
        chunks := chunks + [s[prevStart..i]];
        prevStart := i;
      } else {
        SplitKeep(s, chunks, prevStart, i);
      }
      i := i + 1;
    }
    if prevStart != |s| - 1 {
      var piece := s[prevStart..i];
      assert s == s[..prevStart] + piece;
      ChainedAppend(chunks, piece);
      FlattenAppend(chunks, piece);
      chunks := chunks + [piece];
    } else {
      assert s[..|s| - 1] == s[..prevStart];
    }
    return Ok(chunks);
  }

  /** The pieces cut and the start of the current run after the first `i` items. */
  function SplitScan<T(==)>(s: seq<T>, i: nat): (r: (seq<seq<T>>, nat))
    requires i <= |s|
    ensures r.1 <= i
  {
    if i == 0 then ([], 0)
    else
      var (chunks, prevStart) := SplitScan(s, i - 1);
      if i - 1 > 0 && s[i - 1] == s[i - 2] then (chunks + [s[prevStart..i - 1]], i - 1)
      else (chunks, prevStart)
  }

  /** What `split_same` yields: the cut pieces, then the final run unless it is a single item. */
  function SplitPieces<T(==)>(s: seq<T>): Result<seq<seq<T>>>
  {
    if s == [] then Err(UnboundLocalError)
    else
      var (chunks, prevStart) := SplitScan(s, |s|);
      Ok(if prevStart != |s| - 1 then chunks + [s[prevStart..]] else chunks)
  }

  /**
   * The loop of `split_same` after `i` items: the pieces cut so far cover the
   * items before `prevStart`, each cut falls between two equal items, and the
   * run since the last cut has no neighbouring duplicates.
   */
  ghost predicate SplitState<T>(s: seq<T>, chunks: seq<seq<T>>, prevStart: nat, i: nat)
  {
    && prevStart <= i <= |s|
    && (i > 0 ==> prevStart < i)
    && (prevStart == 0 <==> chunks == [])
    && (prevStart > 0 ==> && chunks != [] && Last(chunks) != [] && s[prevStart] == s[prevStart - 1]
                          && Last(Last(chunks)) == s[prevStart - 1])
    && (i >= 1 ==> (prevStart == i - 1 <==> i == 1 || s[i - 1] == s[i - 2]))
    && Flatten(chunks) == s[..prevStart]
    && NoAdjacentDuplicates(s[prevStart..i])
    && Chained(chunks)
  }

  /** An item equal to its predecessor closes the current run as a piece and starts a new one. */
  lemma SplitCut<T>(s: seq<T>, chunks: seq<seq<T>>, prevStart: nat, i: nat)
    requires SplitState(s, chunks, prevStart, i) && 0 < i < |s| && s[i] == s[i - 1]
    ensures SplitState(s, chunks + [s[prevStart..i]], i, i + 1)
  {
    var piece := s[prevStart..i];
    assert NoAdjacentDuplicates(s[i..i + 1]);
    assert s[..i] == s[..prevStart] + piece;
    assert Last(piece) == s[i - 1];
    ChainedAppend(chunks, piece);
    FlattenAppend(chunks, piece);
  }

  /** An item unlike its predecessor extends the current run. */
  lemma SplitKeep<T>(s: seq<T>, chunks: seq<seq<T>>, prevStart: nat, i: nat)
    requires SplitState(s, chunks, prevStart, i) && i < |s| && !(i > 0 && s[i] == s[i - 1])
    ensures SplitState(s, chunks, prevStart, i + 1)
  {
    ExtendRun(s, prevStart, i);
  }

  // ---------------------------------------------------------------------------
  // Curves
  // ---------------------------------------------------------------------------

  /**
   * The numeric routines this model takes as given: `math.sqrt`,
   * `math.atan2`, `math.cos`, `math.sin`, the evenly spaced Bezier sampler
   * (control points and a point count to points) and the Bezier length
   * estimate (control points to a length).
   */
  datatype Numerics = Numerics(
    sqrt: real -> real,
    atan2: (real, real) -> real,
    cos: real -> real,
    sin: real -> real,
    bezierEvenlySpaced: (seq<Pixel>, int) -> seq<Pixel>,
    estimateLength: seq<Pixel> -> real)

  /**
   * A curve wrapper: `Line` (l_curve) maps t to the straight path between two
   * points, `Arc` (p_curve) maps t through the angle sequence onto a circle,
   * and `Stream` (b_curve) ignores t and hands out its precomputed points in
   * order, one per call.
   */
  datatype Curve =
    | Line(from: Pixel, to: Pixel)
    | Arc(centre: Pixel, radius: real, angles: AngleSequence)
    | Stream(points: seq<Pixel>)

  /** The straight path of `l_curve` at parameter `t`. */
  function LinePoint(from: Pixel, to: Pixel, t: real): (r: Pixel)
    ensures t == 0.0 ==> r == from
    ensures t == 1.0 ==> r == to
    ensures t == 0.5 ==> r.x + r.x == from.x + to.x && r.y + r.y == from.y + to.y
  {
    var dx, dy := to.x - from.x, to.y - from.y;
    Pixel(dx * t + from.x, dy * t + from.y)
  }

  /** The path is affine: moving the parameter by `s - t` moves the point by that much of `to - from`. */
  lemma LinePointAffine(from: Pixel, to: Pixel, s: real, t: real)
    ensures LinePoint(from, to, s).x - LinePoint(from, to, t).x == (s - t) * (to.x - from.x)
    ensures LinePoint(from, to, s).y - LinePoint(from, to, t).y == (s - t) * (to.y - from.y)
  {
    var dx, dy := to.x - from.x, to.y - from.y;
    assert (dx * s + from.x) - (dx * t + from.x) == (s - t) * dx;
    assert (dy * s + from.y) - (dy * t + from.y) == (s - t) * dy;
  }

  /** The length of a line wrapper, from its two samples (its length hint is 2). */
  function LineLength(env: Numerics, from: Pixel, to: Pixel): real
  {
    var ts := Linspace(0.0, 1.0, 2);
    var a, b := LinePoint(from, to, ts[0]), LinePoint(from, to, ts[1]);
    env.sqrt((b.x - a.x) * (b.x - a.x) + (b.y - a.y) * (b.y - a.y))
  }

  /** The squared distance between two points. */
  function SquaredDistance(p: Pixel, q: Pixel): real
  {
    (p.x - q.x) * (p.x - q.x) + (p.y - q.y) * (p.y - q.y)
  }

  /** A straight line `a*x + b*y == e`. */
  datatype LineEquation = LineEquation(a: real, b: real, e: real)

  /** True when `c` lies on the line. */
  predicate OnLine(l: LineEquation, c: Pixel)
  {
    l.a * c.x + l.b * c.y == l.e
  }

  /** The perpendicular bisector of `p` and `q`, with the coefficients `p_curve` uses. */
  function Bisector(p: Pixel, q: Pixel): LineEquation
  {
    LineEquation(p.x - q.x, p.y - q.y, ((p.x * p.x - q.x * q.x) - (q.y * q.y - p.y * p.y)) / 2.0)
  }

  /** The determinant of two lines, as `b*c - a*d`; zero when they are parallel. */
  function Determinant(l1: LineEquation, l2: LineEquation): real
  {
    l1.b * l2.a - l1.a * l2.b
  }

  /** The meeting point of two lines by Cramer's rule, signs as in `p_curve`. */
  function Solve(l1: LineEquation, l2: LineEquation): (r: Pixel)
    requires Determinant(l1, l2) != 0.0
    ensures OnLine(l1, r) && OnLine(l2, r)
  {
    var det := Determinant(l1, l2);
    var x := -((l2.b * l1.e - l1.b * l2.e) / det);
    var y := -((l1.a * l2.e - l2.a * l1.e) / det);
    CentreSolves(l1.a, l1.b, l2.a, l2.b, l1.e, l2.e, det, x, y);
    Pixel(x, y)
  }

  /**
   * The circumcentre of three points from the perpendicular-bisector system;
   * collinear points make its determinant zero and divide by zero.
   */
  function Circumcentre(p1: Pixel, p2: Pixel, p3: Pixel): (r: Result<Pixel>)
    ensures r.Err? <==> (p1.y - p2.y) * (p1.x - p3.x) == (p1.x - p2.x) * (p1.y - p3.y)
    ensures r.Err? ==> r.error == ZeroDivisionError
    ensures r.Ok? ==> && SquaredDistance(r.value, p1) == SquaredDistance(r.value, p2)
                      && SquaredDistance(r.value, p1) == SquaredDistance(r.value, p3)
  {
    var l1, l2 := Bisector(p1, p2), Bisector(p1, p3);
    if Determinant(l1, l2) == 0.0 then Err(ZeroDivisionError)
    else
      var centre := Solve(l1, l2);
      EquidistantFromBisectors(p1, p2, centre);
      EquidistantFromBisectors(p1, p3, centre);
      Ok(centre)
  }

  /** Dividing a product by its non-zero factor recovers the other factor. */
  lemma CancelFactor(u: real, v: real, det: real)
    requires det != 0.0 && u * det == v * det
    ensures u == v
  {
    assert (u - v) * det == 0.0;
  }

  /** The quotient times the divisor is the dividend. */
  lemma QuotientTimesDivisor(n: real, det: real)
    requires det != 0.0
    ensures -(n / det) * det == -n
  {
  }

  /** The solution of the 2x2 system satisfies both of its equations. */
  lemma CentreSolves(a: real, b: real, c: real, d: real, e: real, f: real, det: real, x: real, y: real)
    requires det == b * c - a * d && det != 0.0
    requires x == -((d * e - b * f) / det)
    requires y == -((a * f - c * e) / det)
    ensures a * x + b * y == e && c * x + d * y == f
  {
    QuotientTimesDivisor(d * e - b * f, det);
    QuotientTimesDivisor(a * f - c * e, det);
    var xd, yd := x * det, y * det;
    assert xd == -(d * e - b * f);
    assert yd == -(a * f - c * e);
    assert (a * x + b * y) * det == a * xd + b * yd;
    assert a * xd + b * yd == e * det;
    CancelFactor(a * x + b * y, e, det);
    assert (c * x + d * y) * det == c * xd + d * yd;
    assert c * xd + d * yd == f * det;
    CancelFactor(c * x + d * y, f, det);
  }

  /** A point on the perpendicular bisector of `p` and `q` is as far from one as from the other. */
  lemma EquidistantFromBisectors(p: Pixel, q: Pixel, c: Pixel)
    requires OnLine(Bisector(p, q), c)
    ensures SquaredDistance(c, p) == SquaredDistance(c, q)
  {
  }

  /**
   * `p_curve`: exactly three points; the circle through them, its radius from
   * the first point, and each point's angle moved into [0, 2*pi).
   */
  function ArcCurve(env: Numerics, points: seq<Pixel>): (r: Result<Curve>)
    ensures |points| != 3 ==> r == Err(ValueError)
    ensures |points| == 3 ==> var c := Circumcentre(points[0], points[1], points[2]);
      && (c.Err? ==> r == Err(c.error))
      && (c.Ok? ==> var a := NewAngleSequence(ArcAngle(env, c.value, points[0]), ArcAngle(env, c.value, points[1]),
                                              ArcAngle(env, c.value, points[2]));
            r == if a.Err? then Err(a.error)
                 else Ok(Arc(c.value, env.sqrt(SquaredDistance(points[0], c.value)), a.value)))
    ensures r.Ok? ==> r.value.Arc? && |points| == 3
    ensures r.Ok? ==> Circumcentre(points[0], points[1], points[2]) == Ok(r.value.centre)
  {
    if |points| != 3 then Err(ValueError)
    else
      var centre :- Circumcentre(points[0], points[1], points[2]);
      var radius := env.sqrt(SquaredDistance(points[0], centre));
      var angles := seq(3, i requires 0 <= i < 3 => ArcAngle(env, centre, points[i]));
      var s :- NewAngleSequence(angles[0], angles[1], angles[2]);
      Ok(Arc(centre, radius, s))
  }

  /** The angle of `p` seen from `centre`, moved into [0, 2*pi). */
  function ArcAngle(env: Numerics, centre: Pixel, p: Pixel): real
  {
    NormalizeAngle(env.atan2(p.y - centre.y, p.x - centre.x))
  }

  /**
   * `b_curve`: `floor(time * 60 / 1000) + 1` evenly spaced points, drawn in
   * order; a count below one leaves the sampler nothing to interpolate.
   */
  function BezierCurve(env: Numerics, points: seq<Pixel>, time: real): (r: Result<Curve>)
    ensures r.Ok? <==> (time * 60.0 / 1000.0).Floor >= 0
    ensures r.Ok? ==> r.value == Stream(env.bezierEvenlySpaced(points, (time * 60.0 / 1000.0).Floor + 1))
  {
    var count := (time * 60.0 / 1000.0).Floor + 1;
    if count < 1 then Err(ValueError) else Ok(Stream(env.bezierEvenlySpaced(points, count)))
  }

  /** The `j`-th of `m` calls of a curve wrapper, at `t = linspace(0, 1, m)[j]`. */
  function Sample(env: Numerics, c: Curve, j: nat, m: nat): (r: Result<Pixel>)
    requires j < m
    ensures c.Line? ==> r == Ok(LinePoint(c.from, c.to, Linspace(0.0, 1.0, m)[j]))
    ensures c.Stream? ==> (r.Ok? <==> j < |c.points|) && (r.Ok? ==> r.value == c.points[j])
    ensures c.Stream? && r.Err? ==> r.error == StopIteration
    ensures c.Arc? ==> var a := GetT(c.angles, Linspace(0.0, 1.0, m)[j]);
      && (r.Ok? <==> a.Ok?)
      && (a.Err? ==> r.error == a.error)
      && (r.Ok? ==> (r.value.x - c.centre.x == c.radius * env.cos(a.value)
                     && r.value.y - c.centre.y == c.radius * env.sin(a.value)))
  {
    var t := Linspace(0.0, 1.0, m)[j];
    match c
    case Line(from, to) => Ok(LinePoint(from, to, t))
    case Arc(centre, radius, angles) =>
      var a :- GetT(angles, t);
      Ok(Pixel(centre.x + radius * env.cos(a), centre.y + radius * env.sin(a)))
    case Stream(points) => if j < |points| then Ok(points[j]) else Err(StopIteration)
  }

  /** The first `k` of `m` samples of a curve, stopping at the first failure. */
  function SampleRun(env: Numerics, c: Curve, k: nat, m: nat): (r: Result<seq<Pixel>>)
    requires k <= m
    ensures r.Ok? ==> |r.value| == k && forall j :: 0 <= j < k ==> Sample(env, c, j, m) == Ok(r.value[j])
    ensures r.Ok? <==> forall j :: 0 <= j < k ==> Sample(env, c, j, m).Ok?
    ensures r.Err? ==> exists j :: 0 <= j < k && Sample(env, c, j, m) == Err(r.error)
                                 && forall i :: 0 <= i < j ==> Sample(env, c, i, m).Ok?
  {
    if k == 0 then Ok([])
    else
      var init :- SampleRun(env, c, k - 1, m);
      var p :- Sample(env, c, k - 1, m);
      Ok(init + [p])
  }

  /** Every sample of a line succeeds, the `j`-th being its point at `linspace(0, 1, m)[j]`. */
  lemma LineSamples(env: Numerics, from: Pixel, to: Pixel, m: nat)
    ensures var r := SampleRun(env, Line(from, to), m, m);
      && r.Ok?
      && forall j :: 0 <= j < m ==> r.value[j] == LinePoint(from, to, Linspace(0.0, 1.0, m)[j])
  {
    var c := Line(from, to);
    var k := 0;
    while k < m
      invariant k <= m && SampleRun(env, c, k, m).Ok?
    {
      k := k + 1;
    }
  }

  /** A line sampled at `m >= 2` points starts at its first point and ends at its second. */
  lemma LineSampleEnds(env: Numerics, from: Pixel, to: Pixel, m: nat)
    requires m >= 2
    ensures var r := SampleRun(env, Line(from, to), m, m);
      r.Ok? && r.value[0] == from && r.value[m - 1] == to
  {
    LineSamples(env, from, to, m);
  }

  /** Consecutive samples of a line are the same vector apart: `(to - from) / (m - 1)`. */
  lemma LineSamplesEvenlySpaced(env: Numerics, from: Pixel, to: Pixel, m: nat, j: nat)
    requires m >= 2 && j + 1 < m
    ensures var r := SampleRun(env, Line(from, to), m, m);
      && r.Ok?
      && r.value[j + 1].x - r.value[j].x == (to.x - from.x) / ((m - 1) as real)
      && r.value[j + 1].y - r.value[j].y == (to.y - from.y) / ((m - 1) as real)
  {
    LineSamples(env, from, to, m);
    var r := SampleRun(env, Line(from, to), m, m).value;
    var ts := Linspace(0.0, 1.0, m);
    LinspaceStep(0.0, 1.0, m, j);
    StepApart(from, to, ts[j], ts[j + 1], (m - 1) as real);
  }

  /** Two points of the straight path `1 / k` apart in the parameter are `(to - from) / k` apart. */
  lemma StepApart(from: Pixel, to: Pixel, a: real, b: real, k: real)
    requires k != 0.0 && b - a == (1.0 - 0.0) / k
    ensures LinePoint(from, to, b).x - LinePoint(from, to, a).x == (to.x - from.x) / k
    ensures LinePoint(from, to, b).y - LinePoint(from, to, a).y == (to.y - from.y) / k
  {
    LinePointAffine(from, to, b, a);
    assert (b - a) * (to.x - from.x) == (to.x - from.x) / k;
    assert (b - a) * (to.y - from.y) == (to.y - from.y) / k;
  }

  /**
   * `split_time`: shares a duration among segments in proportion to their
   * lengths. Lengths that add up to zero make every share 0/0, a NaN, which
   * this model reports as `None`.
   */
  function SplitTime(lengths: seq<real>, total: real): (r: Option<seq<real>>)
    ensures lengths == [] ==> r == Some([])
    ensures lengths != [] ==> (r.None? <==> Sum(lengths) == 0.0)
    ensures r.Some? ==> |r.value| == |lengths|
    ensures r.Some? ==> forall i :: 0 <= i < |lengths| ==> r.value[i] * Sum(lengths) == total * lengths[i]
    ensures r.Some? && lengths != [] ==> Sum(r.value) == total
  {
    var totalLength := Sum(lengths);
    if lengths == [] then Some([])
    else if totalLength == 0.0 then None
    else
      var shares := Shares(lengths, total, totalLength);
      SharesSum(lengths, shares, total, totalLength);
      Some(shares)
  }

  /** Each length's weight `length / whole`, times the total. */
  function Shares(lengths: seq<real>, total: real, whole: real): (r: seq<real>)
    requires whole != 0.0
    ensures |r| == |lengths|
    ensures forall i :: 0 <= i < |lengths| ==> r[i] * whole == total * lengths[i]
  {
    var weights := seq(|lengths|, i requires 0 <= i < |lengths| => lengths[i] / whole);
    var r := seq(|lengths|, i requires 0 <= i < |lengths| => total * weights[i]);
    assert forall i :: 0 <= i < |lengths| ==> r[i] * whole == total * lengths[i] by {
      forall i | 0 <= i < |lengths| {
        ShareOf(total, lengths[i], whole);
      }
    }
    r
  }

  /** Shares proportional to lengths of non-zero sum `whole` add up to the total. */
  lemma SharesSum(lengths: seq<real>, shares: seq<real>, total: real, whole: real)
    requires |shares| == |lengths| && whole == Sum(lengths) && whole != 0.0
    requires forall i :: 0 <= i < |lengths| ==> shares[i] * whole == total * lengths[i]
    ensures Sum(shares) == total
  {
    SumProportional(lengths, shares, whole, total);
    WholeCancels(Sum(shares), Sum(lengths), total, whole);
  }

  /** `a * whole == total * b` with `b` the non-zero `whole` itself gives `a == total`. */
  lemma WholeCancels(a: real, b: real, total: real, whole: real)
    requires whole != 0.0 && b == whole && a * whole == total * b
    ensures a == total
  {
    CancelFactor(a, total, whole);
  }

  /** A share of `total` in proportion `length / whole`, times the whole, is `total * length`. */
  lemma ShareOf(total: real, length: real, whole: real)
    requires whole != 0.0
    ensures total * (length / whole) * whole == total * length
  {
    assert length / whole * whole == length;
  }

  /** Items proportional to others, with the same factor, have proportional sums. */
  lemma {:induction false} SumProportional(xs: seq<real>, ys: seq<real>, s: real, total: real)
    requires |xs| == |ys|
    requires forall i :: 0 <= i < |xs| ==> ys[i] * s == total * xs[i]
    ensures Sum(ys) * s == total * Sum(xs)
  {
    if xs != [] {
      var n := |xs| - 1;
      SumProportional(xs[..n], ys[..n], s, total);
      assert ys[n] * s == total * xs[n];
      assert (Sum(ys[..n]) + ys[n]) * s == Sum(ys[..n]) * s + ys[n] * s;
      assert total * (Sum(xs[..n]) + xs[n]) == total * Sum(xs[..n]) + total * xs[n];
    }
  }

  /**
   * The points of consecutive segments joined as `calculate_points` does:
   * before each segment is appended, the last point so far is removed.
   */
  function Joined(segments: seq<seq<Pixel>>): seq<Pixel>
  {
    if segments == [] then []
    else
      var sofar := Joined(segments[..|segments| - 1]);
      (if sofar == [] then [] else sofar[..|sofar| - 1]) + segments[|segments| - 1]
  }

  /** Joining one more segment drops the last point so far and appends the segment. */
  lemma JoinedAppend(segments: seq<seq<Pixel>>, seg: seq<Pixel>)
    ensures var sofar := Joined(segments);
      Joined(segments + [seg]) == (if sofar == [] then [] else sofar[..|sofar| - 1]) + seg
  {
    assert (segments + [seg])[..|segments|] == segments;
  }

  /** Every segment but the last without its final point. */
  function DropLasts(segments: seq<seq<Pixel>>): seq<seq<Pixel>>
    requires forall k :: 0 <= k < |segments| ==> segments[k] != []
  {
    seq(|segments|, k requires 0 <= k < |segments| => segments[k][..|segments[k]| - 1])
  }

  /**
   * With non-empty segments, the joined points are every segment but the last
   * without its final point, followed by the whole last segment; so the shared
   * boundary point is kept once.
   */
  lemma {:induction false} JoinedDropsBoundaries(segments: seq<seq<Pixel>>)
    requires segments != []
    requires forall k :: 0 <= k < |segments| ==> segments[k] != []
    ensures Joined(segments) == Flatten(DropLasts(segments[..|segments| - 1])) + Last(segments)
  {
    var n := |segments|;
    if n > 1 {
      var init := segments[..n - 1];
      JoinedDropsBoundaries(init);
      assert init[..|init| - 1] == segments[..n - 2];
      var prev := Joined(init);
      assert prev == Flatten(DropLasts(segments[..n - 2])) + segments[n - 2];
      assert prev[..|prev| - 1] == Flatten(DropLasts(segments[..n - 2])) + segments[n - 2][..|segments[n - 2]| - 1];
      assert DropLasts(segments[..n - 1]) == DropLasts(segments[..n - 2]) + [segments[n - 2][..|segments[n - 2]| - 1]];
    } else {
      assert segments[..0] == [];
      assert DropLasts([]) == [];
    }
  }

  /** With non-empty segments, each one after the first adds one point fewer than it has. */
  lemma {:induction false} JoinedLength(segments: seq<seq<Pixel>>)
    requires forall k :: 0 <= k < |segments| ==> segments[k] != []
    ensures segments != [] ==> |Joined(segments)| + |segments| - 1 == SumLengths(segments)
  {
    if |segments| > 1 {
      JoinedLength(segments[..|segments| - 1]);
    }
  }

  function SumLengths<T>(xss: seq<seq<T>>): nat
  {
    if xss == [] then 0 else SumLengths(xss[..|xss| - 1]) + |xss[|xss| - 1]|
  }

  /** How many (wrapper, step) pairs `zip` forms. */
  function Pairs(curves: seq<Curve>, steps: seq<real>): nat
  {
    if |curves| < |steps| then |curves| else |steps|
  }

  /**
   * The segments `calculate_points` samples from the first `n` pairs: for
   * each wrapper and step, `floor(step)` samples; a negative count is refused
   * by linspace.
   */
  function SampleSegments(env: Numerics, curves: seq<Curve>, steps: seq<real>, n: nat): (r: Result<seq<seq<Pixel>>>)
    requires n <= Pairs(curves, steps)
    ensures r.Ok? ==> |r.value| == n
    ensures r.Ok? ==> forall k :: 0 <= k < n ==> steps[k].Floor >= 0 && |r.value[k]| == steps[k].Floor
    ensures r.Ok? <==> forall k :: 0 <= k < n ==>
      steps[k].Floor >= 0 && SampleRun(env, curves[k], steps[k].Floor, steps[k].Floor).Ok?
    ensures r.Ok? ==> forall k :: 0 <= k < n ==>
      SampleRun(env, curves[k], steps[k].Floor, steps[k].Floor) == Ok(r.value[k])
  {
    if n == 0 then Ok([])
    else
      var init :- SampleSegments(env, curves, steps, n - 1);
      var m := steps[n - 1].Floor;
      if m < 0 then Err(ValueError)
      else
        var seg :- SampleRun(env, curves[n - 1], m, m);
        Ok(init + [seg])
  }

  /** One more pair: refused for a negative count, failing when its samples fail, and otherwise one more segment. */
  lemma SampleSegmentsNext(env: Numerics, curves: seq<Curve>, steps: seq<real>, i: nat)
    requires i < Pairs(curves, steps) && SampleSegments(env, curves, steps, i).Ok?
    ensures var m := steps[i].Floor;
      SampleSegments(env, curves, steps, i + 1) ==
        if m < 0 then Err(ValueError)
        else if SampleRun(env, curves[i], m, m).Err? then Err(SampleRun(env, curves[i], m, m).error)
        else Ok(SampleSegments(env, curves, steps, i).value + [SampleRun(env, curves[i], m, m).value])
  {
  }

  /** Once the first `i` pairs fail, every longer run of pairs fails. */
  lemma {:induction false} SampleSegmentsFailurePersists(env: Numerics, curves: seq<Curve>, steps: seq<real>, i: nat, n: nat)
    requires i <= n <= Pairs(curves, steps)
    requires SampleSegments(env, curves, steps, i).Err?
    ensures SampleSegments(env, curves, steps, n) == SampleSegments(env, curves, steps, i)
  {
    if i < n {
      SampleSegmentsFailurePersists(env, curves, steps, i, n - 1);
    }
  }

  /** A pair that is refused or whose samples fail makes every longer run of pairs fail. */
  lemma SegmentFails(env: Numerics, curves: seq<Curve>, steps: seq<real>, i: nat, n: nat)
    requires i < n <= Pairs(curves, steps) && SampleSegments(env, curves, steps, i).Ok?
    requires steps[i].Floor < 0 || SampleRun(env, curves[i], steps[i].Floor, steps[i].Floor).Err?
    ensures SampleSegments(env, curves, steps, n) ==
      Err(if steps[i].Floor < 0 then ValueError else SampleRun(env, curves[i], steps[i].Floor, steps[i].Floor).error)
  {
    SampleSegmentsNext(env, curves, steps, i);
    SampleSegmentsFailurePersists(env, curves, steps, i + 1, n);
  }

  /** A pair whose samples succeed adds its segment, joined after the last point so far is dropped. */
  lemma SegmentJoins(env: Numerics, curves: seq<Curve>, steps: seq<real>, i: nat, segs: seq<seq<Pixel>>, seg: seq<Pixel>)
    requires i < Pairs(curves, steps) && SampleSegments(env, curves, steps, i) == Ok(segs)
    requires steps[i].Floor >= 0 && SampleRun(env, curves[i], steps[i].Floor, steps[i].Floor) == Ok(seg)
    ensures SampleSegments(env, curves, steps, i + 1) == Ok(segs + [seg])
    ensures var sofar := Joined(segs);
      Joined(segs + [seg]) == (if |sofar| > 0 then sofar[..|sofar| - 1] else sofar) + seg
  {
    SampleSegmentsNext(env, curves, steps, i);
    JoinedAppend(segs, seg);
  }

  /** The points `calculate_points` gathers: the sampled segments, joined; the first failure otherwise. */
  function CalculatedPoints(env: Numerics, curves: seq<Curve>, steps: seq<real>): Result<seq<Pixel>>
  {
    var segs :- SampleSegments(env, curves, steps, Pairs(curves, steps));
    Ok(Joined(segs))
  }

  /**
   * `calculate_points`: for each wrapper and step, pops the last point
   * gathered so far and appends the wrapper's samples.
   */
  method CalculatePoints(env: Numerics, curves: seq<Curve>, steps: seq<real>) returns (r: Result<seq<Pixel>>)
    ensures var segs := SampleSegments(env, curves, steps, Pairs(curves, steps));
      && (r.Ok? <==> segs.Ok?)
      && (r.Ok? ==> r.value == Joined(segs.value))
      && (r.Err? ==> r.error == segs.error)
    ensures r == CalculatedPoints(env, curves, steps)
  {
    var n := Pairs(curves, steps);
    var points: seq<Pixel> := [];
    ghost var segs: seq<seq<Pixel>> := [];
    var i := 0;
    while i < n
      invariant 0 <= i <= n
      invariant SampleSegments(env, curves, steps, i) == Ok(segs)
      invariant points == Joined(segs)
    {
      var kept := if |points| > 0 then points[..|points| - 1] else points;
      var m := steps[i].Floor;
      if m < 0 {
        SegmentFails(env, curves, steps, i, n);
        return Err(ValueError);
      }
      var seg := SampleRun(env, curves[i], m, m);
      if seg.Err? {
        SegmentFails(env, curves, steps, i, n);
        return Err(seg.error);
      }
      SegmentJoins(env, curves, steps, i, segs, seg.value);
      points := kept + seg.value;
      segs := segs + [seg.value];
      i := i + 1;
    }
    return Ok(points);
  }
}
