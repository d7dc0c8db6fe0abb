/**
 * The parts of the Python runtime and of numpy that the converter leans on,
 * stated exactly: the exceptions it can raise, `round`, `math.ceil`,
 * `int(float)`, `numpy.linspace`, `str.split`/`str.join`/`str.strip`, and
 * `int(str)`/`float(str)` on the plain decimal forms found in beatmap files.
 */
module Builtins {

  /** The Python exceptions that the modelled code can raise. */
  datatype Error =
    | IndexError
    | KeyError
    | ValueError
    | TypeError
    | AttributeError
    | ZeroDivisionError
    | StopIteration
    | UnboundLocalError

  datatype Option<+T> = None | Some(value: T)

  /** A computation that either returns a value or raises one of the exceptions above. */
  datatype Result<+T> = Ok(value: T) | Err(error: Error) {
    predicate IsFailure() { Err? }

    function PropagateFailure<U>(): Result<U>
      requires Err?
    {
      Err(error)
    }

    function Extract(): T
      requires Ok?
    {
      value
    }
  }

  // ---------------------------------------------------------------------------
  // Numbers
  // ---------------------------------------------------------------------------

  /** Python's `round(x)` on a float: the nearest integer, a tie going to the even one. */
  function RoundHalfEven(x: real): (r: int)
    ensures -0.5 <= x - r as real <= 0.5
    ensures (x - r as real == 0.5 || r as real - x == 0.5) ==> r % 2 == 0
  {
    var f := x.Floor;
    var d := x - f as real;
    if d < 0.5 then f
    else if d > 0.5 then f + 1
    else if f % 2 == 0 then f
    else f + 1
  }

  /** Rounding a value that is already an integer gives it back. */
  lemma RoundOfInteger(k: int)
    ensures RoundHalfEven(k as real) == k
  {
    assert (k as real).Floor == k;
  }

  /** Away from a tie, rounding gives the whole number within half a unit. */
  lemma RoundNearestInteger(x: real, k: int)
    requires -0.5 < x - k as real < 0.5
    ensures RoundHalfEven(x) == k
  {
    var r := RoundHalfEven(x);
    assert -1.0 < (r - k) as real < 1.0;
  }

  /** Rounding never reverses the order of two values. */
  lemma RoundMonotone(x: real, y: real)
    requires x <= y
    ensures RoundHalfEven(x) <= RoundHalfEven(y)
  {
  }

  /** `math.ceil(x)`: the least integer not below `x`. */
  function Ceil(x: real): (r: int)
    ensures x <= r as real < x + 1.0
  {
    if x.Floor as real == x then x.Floor else x.Floor + 1
  }

  /** `int(x)` on a float: the integer part, truncating toward zero. */
  function Trunc(x: real): (r: int)
    ensures 0.0 <= x ==> 0 <= r && r as real <= x < r as real + 1.0
    ensures x < 0.0 ==> r <= 0 && r as real - 1.0 < x <= r as real
  {
    if x >= 0.0 then x.Floor else -((-x).Floor)
  }

  /**
   * `numpy.linspace(a, b, m)`: `m` evenly spaced values from `a` to `b`, both
   * ends included when `m >= 2`; a single sample is `a` itself.
   */
  function Linspace(a: real, b: real, m: nat): (r: seq<real>)
    ensures |r| == m
    ensures m >= 1 ==> r[0] == a
    ensures m >= 2 ==> r[m - 1] == b
  {
    if m == 0 then []
    else if m == 1 then [a]
    else
      var step := (b - a) / ((m - 1) as real);
      assert step * ((m - 1) as real) == b - a;
      seq(m, j requires 0 <= j < m => a + step * (j as real))
  }

  /** The samples of an increasing range never decrease. */
  lemma LinspaceMonotone(a: real, b: real, m: nat, i: nat, j: nat)
    requires a <= b && i <= j < m
    ensures Linspace(a, b, m)[i] <= Linspace(a, b, m)[j]
  {
    if m >= 2 {
      var step := (b - a) / ((m - 1) as real);
      assert step >= 0.0;
      assert step * (j as real) - step * (i as real) == step * ((j - i) as real);
    }
  }

  /** Consecutive samples are exactly one step apart. */
  lemma LinspaceStep(a: real, b: real, m: nat, i: nat)
    requires m >= 2 && i + 1 < m
    ensures Linspace(a, b, m)[i + 1] - Linspace(a, b, m)[i] == (b - a) / ((m - 1) as real)
  {
  }

  function Sum(xs: seq<real>): real
  {
    if xs == [] then 0.0 else Sum(xs[..|xs| - 1]) + xs[|xs| - 1]
  }

  /** The sum of a sequence taken from the front equals the one taken from the back. */
  lemma {:induction false} SumFront(xs: seq<real>)
    requires xs != []
    ensures Sum(xs) == xs[0] + Sum(xs[1..])
  {
    if |xs| > 1 {
      SumFront(xs[..|xs| - 1]);
      assert xs[..|xs| - 1][1..] == xs[1..][..|xs[1..]| - 1];
    }
  }

  function Flatten<T>(xss: seq<seq<T>>): seq<T>
  {
    if xss == [] then [] else Flatten(xss[..|xss| - 1]) + xss[|xss| - 1]
  }

  /**
   * `f` applied to every item in order, the first failure raised: the
   * `list(map(f, xs))` of a function that may raise.
   */
  function MapResult<T, U>(f: T -> Result<U>, xs: seq<T>): (r: Result<seq<U>>)
    ensures r.Ok? <==> forall i :: 0 <= i < |xs| ==> f(xs[i]).Ok?
    ensures r.Ok? ==> |r.value| == |xs| && forall i :: 0 <= i < |xs| ==> f(xs[i]) == Ok(r.value[i])
    ensures r.Err? ==> exists i :: 0 <= i < |xs| && f(xs[i]) == Err(r.error)
  {
    if xs == [] then Ok([])
    else
      var first :- f(xs[0]);
      var rest :- MapResult(f, xs[1..]);
      assert forall i :: 1 <= i < |xs| ==> xs[1..][i - 1] == xs[i] && ([first] + rest)[i] == rest[i - 1];
      Ok([first] + rest)
  }

  /** Mapping one more item: the earlier failure wins, then this item's failure, else its value is appended. */
  lemma {:induction false} MapResultSnoc<T, U>(f: T -> Result<U>, xs: seq<T>, x: T)
    ensures MapResult(f, xs + [x]) ==
      if MapResult(f, xs).Err? then Err(MapResult(f, xs).error)
      else if f(x).Err? then Err(f(x).error)
      else Ok(MapResult(f, xs).value + [f(x).value])
  {
    if xs == [] {
      assert [x][1..] == [] && xs + [x] == [x];
      assert MapResult(f, xs) == Ok([]);
      if f(x).Ok? {
        assert MapResult(f, [x]) == Ok([f(x).value] + []);
        assert [f(x).value] + [] == [] + [f(x).value];
      }
    } else {
      var ys := xs + [x];
      assert ys[0] == xs[0] && ys[1..] == xs[1..] + [x];
      MapResultSnoc(f, xs[1..], x);
      if f(xs[0]).Ok? && MapResult(f, xs[1..]).Ok? && f(x).Ok? {
        assert MapResult(f, xs) == Ok([f(xs[0]).value] + MapResult(f, xs[1..]).value);
        assert MapResult(f, ys) == Ok([f(xs[0]).value] + (MapResult(f, xs[1..]).value + [f(x).value]));
        assert [f(xs[0]).value] + (MapResult(f, xs[1..]).value + [f(x).value])
            == ([f(xs[0]).value] + MapResult(f, xs[1..]).value) + [f(x).value];
      }
    }
  }

  /** Once a prefix fails, the whole sequence fails with the same error. */
  lemma {:induction false} MapResultPrefixFails<T, U>(f: T -> Result<U>, xs: seq<T>, n: nat)
    requires n <= |xs| && MapResult(f, xs[..n]).Err?
    ensures MapResult(f, xs) == MapResult(f, xs[..n])
    decreases |xs| - n
  {
    if n < |xs| {
      MapResultSnoc(f, xs[..n], xs[n]);
      assert xs[..n] + [xs[n]] == xs[..n + 1];
      MapResultPrefixFails(f, xs, n + 1);
    } else {
      assert xs[..n] == xs;
    }
  }

  /** A successful prefix of `i` items extends by item `i`: its failure, or its value appended. */
  lemma MapResultExtends<T, U>(f: T -> Result<U>, xs: seq<T>, i: nat, done: seq<U>, y: Result<U>)
    requires i < |xs| && MapResult(f, xs[..i]) == Ok(done) && f(xs[i]) == y
    ensures MapResult(f, xs[..i + 1]) == if y.Err? then Err(y.error) else Ok(done + [y.value])
  {
    assert xs[..i + 1] == xs[..i] + [xs[i]];
    MapResultSnoc(f, xs[..i], xs[i]);
  }

  /** Flattening one more part appends that part. */
  lemma FlattenAppend<T>(xss: seq<seq<T>>, ys: seq<T>)
    ensures Flatten(xss + [ys]) == Flatten(xss) + ys
  {
    assert (xss + [ys])[..|xss|] == xss;
  }

  // ---------------------------------------------------------------------------
  // Strings
  // ---------------------------------------------------------------------------

  /** `str.split(sep)` for a one-character separator: the text between consecutive separators. */
  function Split(s: string, sep: char): (r: seq<string>)
    ensures |r| >= 1
    ensures forall i :: 0 <= i < |r| ==> sep !in r[i]
  {
    if s == [] then [""]
    else
      var rest := Split(s[1..], sep);
      if s[0] == sep then [""] + rest
      else [[s[0]] + rest[0]] + rest[1..]
  }

  /** `sep.join(parts)`. */
  function Join(parts: seq<string>, sep: char): string
  {
    if parts == [] then ""
    else if |parts| == 1 then parts[0]
    else parts[0] + [sep] + Join(parts[1..], sep)
  }

  /** Splitting and joining again at the same separator gives back the text. */
  lemma {:induction false} JoinSplit(s: string, sep: char)
    ensures Join(Split(s, sep), sep) == s
  {
    if s != [] {
      var rest := Split(s[1..], sep);
      JoinSplit(s[1..], sep);
      if s[0] == sep {
        assert ([""] + rest)[1..] == rest;
      } else if |rest| == 1 {
        assert [[s[0]] + rest[0]] + rest[1..] == [[s[0]] + rest[0]];
      } else {
        var r := [[s[0]] + rest[0]] + rest[1..];
        assert r[1..] == rest[1..];
      }
    }
  }

  /**
   * Splitting at the first separator: the first piece is the text before the
   * first occurrence of `sep`, and the remaining pieces joined with `sep` are
   * the text after it.
   */
  lemma SplitFirst(s: string, sep: char)
    ensures var parts := Split(s, sep);
      && sep !in parts[0]
      && (|parts| == 1 ==> s == parts[0])
      && (|parts| >= 2 ==> s == parts[0] + [sep] + Join(parts[1..], sep))
  {
    JoinSplit(s, sep);
  }

  /** The characters `str.isspace()` accepts. */
  predicate IsSpace(c: char)
  {
    || ('\t' <= c <= '\r')
    || ('\U{001c}' <= c <= '\U{001f}')
    || c == ' ' || c == '\U{0085}' || c == '\U{00a0}' || c == '\U{1680}'
    || ('\U{2000}' <= c <= '\U{200a}')
    || c == '\U{2028}' || c == '\U{2029}' || c == '\U{202f}' || c == '\U{205f}' || c == '\U{3000}'
  }

  function StripLeft(s: string): (r: string)
    ensures |r| <= |s| && r == s[|s| - |r|..]
    ensures r == [] || !IsSpace(r[0])
    ensures forall i :: 0 <= i < |s| - |r| ==> IsSpace(s[i])
  {
    if s != [] && IsSpace(s[0]) then StripLeft(s[1..]) else s
  }

  function StripRight(s: string): (r: string)
    ensures |r| <= |s| && r == s[..|r|]
    ensures r == [] || !IsSpace(r[|r| - 1])
    ensures forall i :: |r| <= i < |s| ==> IsSpace(s[i])
  {
    if s != [] && IsSpace(s[|s| - 1]) then StripRight(s[..|s| - 1]) else s
  }

  /** `str.strip()`: the text without its leading and trailing whitespace. */
  function Strip(s: string): (r: string)
    ensures exists i, j ::
              && 0 <= i <= j <= |s| && r == s[i..j]
              && (forall k :: 0 <= k < i ==> IsSpace(s[k]))
              && (forall k :: j <= k < |s| ==> IsSpace(s[k]))
    ensures r == [] || (!IsSpace(r[0]) && !IsSpace(r[|r| - 1]))
  {
    var l := StripLeft(s);
    var r := StripRight(l);
    assert r == s[|s| - |l|..|s| - |l| + |r|];
    r
  }

  predicate IsDigit(c: char) { '0' <= c <= '9' }

  /** The value of a non-empty run of decimal digits. */
  function DigitsValue(ds: string): (v: nat)
    requires forall i :: 0 <= i < |ds| ==> IsDigit(ds[i])
  {
    if ds == [] then 0
    else
      var c := ds[|ds| - 1];
      assert IsDigit(c);
      10 * DigitsValue(ds[..|ds| - 1]) + (c as int - '0' as int)
  }

  /** The value of the digits after a decimal point: 0.d1d2... is (d1 + 0.d2...) / 10. */
  function FractionValue(ds: string): (v: real)
    requires forall i :: 0 <= i < |ds| ==> IsDigit(ds[i])
    ensures 0.0 <= v <= 1.0
  {
    if ds == [] then 0.0
    else
      assert IsDigit(ds[0]);
      ((ds[0] as int - '0' as int) as real + FractionValue(ds[1..])) / 10.0
  }

  predicate AllDigits(s: string)
  {
    forall i :: 0 <= i < |s| ==> IsDigit(s[i])
  }

  /** The text after an optional leading '+' or '-', and whether that sign was '-'. */
  function SignOf(s: string): (bool, string)
  {
    if s != [] && (s[0] == '+' || s[0] == '-') then (s[0] == '-', s[1..]) else (false, s)
  }

  /**
   * `int(s)`: surrounding whitespace, an optional sign and one or more decimal
   * digits; anything else raises ValueError.
   */
  function ParseInt(s: string): (r: Result<int>)
    ensures r.Err? ==> r.error == ValueError
    ensures r.Ok? <==> var t := SignOf(Strip(s)).1; t != [] && AllDigits(t)
    ensures r.Ok? && !SignOf(Strip(s)).0 ==> r.value >= 0
    ensures r.Ok? ==> var (negative, t) := SignOf(Strip(s));
      AllDigits(t) && r.value == (if negative then -(DigitsValue(t) as int) else DigitsValue(t))
  {
    SignedInt(Strip(s))
  }

  /** `int(...)` of text already stripped of its surrounding whitespace. */
  function SignedInt(u: string): (r: Result<int>)
    ensures r.Err? ==> r.error == ValueError
    ensures r.Ok? <==> var t := SignOf(u).1; t != [] && AllDigits(t)
    ensures r.Ok? && !SignOf(u).0 ==> r.value >= 0
    ensures r.Ok? ==> var (negative, t) := SignOf(u);
      AllDigits(t) && r.value == (if negative then -(DigitsValue(t) as int) else DigitsValue(t))
  {
    var (negative, t) := SignOf(u);
    if t == [] || !AllDigits(t) then Err(ValueError)
    else if negative then Ok(-(DigitsValue(t) as int))
    else Ok(DigitsValue(t))
  }

  /** The position of the first '.' in `s`, or `|s|` when there is none. */
  function DotIndex(s: string): (k: nat)
    ensures k <= |s| && '.' !in s[..k]
    ensures k < |s| ==> s[k] == '.'
    ensures AllDigits(s) ==> k == |s|
  {
    if s == [] then 0
    else if s[0] == '.' then 0
    else
      var k := DotIndex(s[1..]);
      assert s[..k + 1] == [s[0]] + s[1..][..k];
      k + 1
  }

  /**
   * `float(s)` on decimal text: surrounding whitespace, an optional sign, then
   * digits with at most one '.', at least one digit in all. Exponents, `inf`
   * and `nan` are not accepted by this model.
   */
  function ParseReal(s: string): (r: Result<real>)
    ensures r.Err? ==> r.error == ValueError
    ensures var t := SignOf(Strip(s)).1; r.Ok? ==> |t| >= 1 && exists i :: 0 <= i < |t| && IsDigit(t[i])
  {
    SignedReal(Strip(s))
  }

  /** `float(...)` of text already stripped of its surrounding whitespace. */
  function SignedReal(u: string): (r: Result<real>)
    ensures r.Err? ==> r.error == ValueError
    ensures var t := SignOf(u).1; r.Ok? ==> |t| >= 1 && exists i :: 0 <= i < |t| && IsDigit(t[i])
  {
    var (negative, t) := SignOf(u);
    var magnitude :- ParseDecimal(t);
    Ok(if negative then -magnitude else magnitude)
  }

  /** Unsigned decimal text: digits with at most one '.', at least one digit in all. */
  function ParseDecimal(t: string): (r: Result<real>)
    ensures r.Err? ==> r.error == ValueError
    ensures r.Ok? ==> |t| >= 1 && exists i :: 0 <= i < |t| && IsDigit(t[i])
  {
    var k := DotIndex(t);
    var whole := t[..k];
    var frac := if k < |t| then t[k + 1..] else "";
    if whole + frac == [] || !AllDigits(whole) || !AllDigits(frac) then Err(ValueError)
    else
      assert IsDigit((whole + frac)[0]);
      Ok(DigitsValue(whole) as real + FractionValue(frac))
  }

  /** Digits without a '.' read as the integer they spell. */
  lemma ParseDecimalOfDigits(t: string)
    requires t != [] && AllDigits(t)
    ensures ParseDecimal(t) == Ok(DigitsValue(t) as real)
  {
    var k := DotIndex(t);
    assert t[..k] == t && t + "" == t;
    assert FractionValue("") == 0.0;
  }

  /** Integer text reads the same through `float(...)` as through `int(...)`. */
  lemma ParseRealOfInteger(s: string)
    requires ParseInt(s).Ok?
    ensures ParseReal(s) == Ok(ParseInt(s).value as real)
  {
    SignedRealOfInteger(Strip(s));
  }

  /** The same for text already stripped of its surrounding whitespace. */
  lemma SignedRealOfInteger(u: string)
    requires SignedInt(u).Ok?
    ensures SignedReal(u) == Ok(SignedInt(u).value as real)
  {
    ParseDecimalOfDigits(SignOf(u).1);
  }
}
