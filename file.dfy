/**
 * Reading a beatmap: the lines of the three needed sections, the chain of
 * timing points with its two synthesised leading points, the slider
 * multiplier, and one hit object per hit-object line; then iterating the
 * objects' samples in file order.
 *
 * The file is given as its lines, each without its line terminator.
 */
module Beatmap {
  import opened Builtins
  import opened Pixels
  import opened Timing
  import opened Utils
  import opened Objects

  // ---------------------------------------------------------------------------
  // Building a sequence where each item may look at an earlier result
  // ---------------------------------------------------------------------------

  /** Every item built with the same previous result `first`; the first failure in item order wins. */
  function Anchored<T, U>(cb: (Option<U>, T) -> Result<U>, first: U, items: seq<T>): (r: Result<seq<U>>)
    ensures r.Ok? <==> forall i :: 0 <= i < |items| ==> cb(Some(first), items[i]).Ok?
    ensures r.Ok? ==> |r.value| == |items| && forall i :: 0 <= i < |items| ==> cb(Some(first), items[i]) == Ok(r.value[i])
  {
    if items == [] then Ok([])
    else
      var front := Anchored(cb, first, items[..|items| - 1]);
      if front.Err? then front
      else
        var x := cb(Some(first), items[|items| - 1]);
        if x.Err? then Err(x.error) else Ok(front.value + [x.value])
  }

  /**
   * What `reduce_map` computes as written: `init` is only assigned while it is
   * still `None`, so the first item is built with no previous result and
   * every later item with the first result.
   */
  function ReduceMapAsWritten<T, U>(cb: (Option<U>, T) -> Result<U>, items: seq<T>): (r: Result<seq<U>>)
    ensures r.Ok? ==> |r.value| == |items|
    ensures r.Ok? && items != [] ==>
      && cb(None, items[0]) == Ok(r.value[0])
      && forall i :: 1 <= i < |items| ==> cb(Some(r.value[0]), items[i]) == Ok(r.value[i])
  {
    if items == [] then Ok([])
    else
      var first :- cb(None, items[0]);
      var rest :- Anchored(cb, first, items[1..]);
      Ok([first] + rest)
  }

  /** The evidently intended chain: each item is built with the result just before it. */
  function RunningChain<T, U>(cb: (Option<U>, T) -> Result<U>, items: seq<T>): (r: Result<seq<U>>)
    ensures r.Ok? ==> |r.value| == |items|
    ensures r.Ok? && items != [] ==> cb(None, items[0]) == Ok(r.value[0])
    ensures r.Ok? ==> forall i :: 1 <= i < |items| ==> cb(Some(r.value[i - 1]), items[i]) == Ok(r.value[i])
  {
    if items == [] then Ok([])
    else
      var front :- RunningChain(cb, items[..|items| - 1]);
      var prev := if front == [] then None else Some(front[|front| - 1]);
      var x :- cb(prev, items[|items| - 1]);
      Ok(front + [x])
  }

  /** One more item that builds extends the anchored run by its result. */
  lemma AnchoredNext<T, U>(cb: (Option<U>, T) -> Result<U>, first: U, items: seq<T>, x: T, vs: seq<U>, v: U)
    requires Anchored(cb, first, items) == Ok(vs) && cb(Some(first), x) == Ok(v)
    ensures Anchored(cb, first, items + [x]) == Ok(vs + [v])
  {
    assert (items + [x])[..|items|] == items;
  }

  /** Once a prefix of the items fails, the whole anchored run fails the same way. */
  lemma {:induction false} AnchoredPrefixFails<T, U>(cb: (Option<U>, T) -> Result<U>, first: U, items: seq<T>, n: nat)
    requires n <= |items| && Anchored(cb, first, items[..n]).Err?
    ensures Anchored(cb, first, items) == Anchored(cb, first, items[..n])
    decreases |items|
  {
    if n < |items| {
      var front := items[..|items| - 1];
      assert front[..n] == items[..n];
      AnchoredPrefixFails(cb, first, front, n);
    } else {
      assert items[..n] == items;
    }
  }

  /** Once a prefix of the items fails, the whole running chain fails the same way. */
  lemma {:induction false} RunningPrefixFails<T, U>(cb: (Option<U>, T) -> Result<U>, items: seq<T>, n: nat)
    requires n <= |items| && RunningChain(cb, items[..n]).Err?
    ensures RunningChain(cb, items) == RunningChain(cb, items[..n])
    decreases |items|
  {
    if n < |items| {
      var front := items[..|items| - 1];
      assert front[..n] == items[..n];
      RunningPrefixFails(cb, front, n);
    } else {
      assert items[..n] == items;
    }
  }

  /** `reduce_map(cb, iterable, None)`, consumed in full. */
  method ReduceMap<T, U>(cb: (Option<U>, T) -> Result<U>, items: seq<T>) returns (r: Result<seq<U>>)
    ensures r == ReduceMapAsWritten(cb, items)
  {
    var init: Option<U> := None;
    var out: seq<U> := [];
    var i := 0;
    while i < |items|
      invariant 0 <= i <= |items|
      invariant ReduceMapAsWritten(cb, items[..i]) == Ok(out)
      invariant init == if out == [] then None else Some(out[0])
    {
      ReduceMapNext(cb, items[..i], items[i], out);
      assert items[..i] + [items[i]] == items[..i + 1];
      var result := cb(init, items[i]);
      if result.Err? {
        ReduceMapPrefixFails(cb, items, i + 1);
        return Err(result.error);
      }
      if init.None? {
        init := Some(result.value);
      }
      out := out + [result.value];
      i := i + 1;
    }
    assert items[..i] == items;
    r := Ok(out);
  }

  /** One more item is built with the first result, or with none when it is the first item. */
  lemma ReduceMapNext<T, U>(cb: (Option<U>, T) -> Result<U>, items: seq<T>, x: T, out: seq<U>)
    requires ReduceMapAsWritten(cb, items) == Ok(out)
    ensures var prev := if out == [] then None else Some(out[0]);
      ReduceMapAsWritten(cb, items + [x])
        == if cb(prev, x).Ok? then Ok(out + [cb(prev, x).value]) else Err(cb(prev, x).error)
  {
    if items == [] {
      assert out == [] && items + [x] == [x] && [x][1..] == [];
      var c := cb(None, x);
      if c.Ok? {
        assert Anchored(cb, c.value, []) == Ok([]);
        assert [c.value] + [] == out + [c.value];
      }
    } else {
      assert (items + [x])[0] == items[0];
      assert (items + [x])[1..] == items[1..] + [x];
      var first := cb(None, items[0]).value;
      assert Anchored(cb, first, items[1..]) == Ok(out[1..]) && out[0] == first;
      assert (items[1..] + [x])[..|items[1..]|] == items[1..];
      assert out == [out[0]] + out[1..];
      var c := cb(Some(first), x);
      if c.Ok? {
        AnchoredNext(cb, first, items[1..], x, out[1..], c.value);
        assert [first] + (out[1..] + [c.value]) == out + [c.value];
      }
    }
  }

  /** Once a prefix of the items fails, the whole map fails the same way. */
  lemma ReduceMapPrefixFails<T, U>(cb: (Option<U>, T) -> Result<U>, items: seq<T>, n: nat)
    requires n <= |items| && ReduceMapAsWritten(cb, items[..n]).Err?
    ensures ReduceMapAsWritten(cb, items) == ReduceMapAsWritten(cb, items[..n])
  {
    assert items[..n][0] == items[0];
    if cb(None, items[0]).Ok? {
      assert items[..n][1..] == items[1..][..n - 1];
      AnchoredPrefixFails(cb, cb(None, items[0]).value, items[1..], n - 1);
    }
  }

  /** The chain with the previous result carried along at every step. */
  method Chain<T, U>(cb: (Option<U>, T) -> Result<U>, items: seq<T>) returns (r: Result<seq<U>>)
    ensures r == RunningChain(cb, items)
  {
    var prev: Option<U> := None;
    var out: seq<U> := [];
    var i := 0;
    while i < |items|
      invariant 0 <= i <= |items|
      invariant RunningChain(cb, items[..i]) == Ok(out)
      invariant prev == if out == [] then None else Some(out[|out| - 1])
    {
      assert items[..i + 1][..i] == items[..i];
      var result := cb(prev, items[i]);
      if result.Err? {
        RunningPrefixFails(cb, items, i + 1);
        return Err(result.error);
      }
      prev := Some(result.value);
      out := out + [result.value];
      i := i + 1;
    }
    assert items[..i] == items;
    r := Ok(out);
  }

  // ---------------------------------------------------------------------------
  // The timing-point chain
  // ---------------------------------------------------------------------------

  /** `lambda p, c: TimePoint(c.split(','), p)`. */
  function ReadTimePoint(prev: Option<TimePoint>, line: string): (r: Result<TimePoint>)
    ensures r.Ok? ==> r == FromParams(Split(line, ','), prev)
    ensures prev.None? && r.Ok? ==> && r.value.uninherited && r.value.step != 0.0 && r.value.baseStep == r.value.step
                                    && r.value.bpm == Trunc(60000.0 / r.value.step)
  {
    FromParams(Split(line, ','), prev)
  }

  /**
   * Every tempo point carries its own beat length and the tempo it implies, and every speed point
   * carries the tempo and beat length of the point just before it.
   */
  predicate TempoConsistent(ps: seq<TimePoint>)
  {
    && (ps != [] ==> ps[0].uninherited)
    && (forall i :: 0 <= i < |ps| && ps[i].uninherited ==>
          ps[i].step != 0.0 && ps[i].baseStep == ps[i].step && ps[i].bpm == Trunc(60000.0 / ps[i].step))
    && (forall i :: 1 <= i < |ps| && !ps[i].uninherited ==> ps[i].baseStep == ps[i - 1].baseStep && ps[i].bpm == ps[i - 1].bpm)
  }

  /** The running chain of timing points is tempo-consistent. */
  lemma RunningChainTempo(lines: seq<string>)
    requires RunningChain(ReadTimePoint, lines).Ok?
    ensures TempoConsistent(RunningChain(ReadTimePoint, lines).value)
  {
    ReadsTempoAlways();
    RunningKeeps(ReadTimePoint, ReadsTempo, lines);
    ConsistentFromReads(RunningChain(ReadTimePoint, lines).value);
  }

  /**
   * Whatever holds of every result of `cb` and the previous result it was
   * given holds along the running chain.
   */
  lemma {:induction false} RunningKeeps<T, U>(cb: (Option<U>, T) -> Result<U>, inv: (Option<U>, U) -> bool, items: seq<T>)
    requires forall prev, x :: cb(prev, x).Ok? ==> inv(prev, cb(prev, x).value)
    requires RunningChain(cb, items).Ok?
    ensures var ps := RunningChain(cb, items).value;
      && (ps != [] ==> inv(None, ps[0]))
      && forall i :: 1 <= i < |ps| ==> inv(Some(ps[i - 1]), ps[i])
    decreases |items|
  {
    if items != [] {
      var front := items[..|items| - 1];
      RunningKeeps(cb, inv, front);
      var fps := RunningChain(cb, front).value;
      var prev := if fps == [] then None else Some(fps[|fps| - 1]);
      var x := cb(prev, items[|items| - 1]);
      assert x.Ok? && RunningChain(cb, items) == Ok(fps + [x.value]);
      var v := x.value;
      var ps := fps + [v];
      KeepsOne(cb, inv, prev, items[|items| - 1]);
      forall i | 1 <= i < |ps|
        ensures inv(Some(ps[i - 1]), ps[i])
      {
        if i < |fps| {
          assert ps[i - 1] == fps[i - 1] && ps[i] == fps[i];
        } else {
          assert ps[i - 1] == fps[|fps| - 1];
        }
      }
      if fps == [] {
        assert ps[0] == x.value;
      } else {
        assert ps[0] == fps[0];
      }
    }
  }

  /** One instance of a property of every result of `cb`. */
  lemma KeepsOne<T, U>(cb: (Option<U>, T) -> Result<U>, inv: (Option<U>, U) -> bool, prev: Option<U>, y: T)
    requires forall p, x :: cb(p, x).Ok? ==> inv(p, cb(p, x).value)
    requires cb(prev, y).Ok?
    ensures inv(prev, cb(prev, y).value)
  {
  }

  /** Points each read after the one before them form a tempo-consistent chain. */
  lemma ConsistentFromReads(ps: seq<TimePoint>)
    requires ps != [] ==> ReadsTempo(None, ps[0])
    requires forall i :: 1 <= i < |ps| ==> ReadsTempo(Some(ps[i - 1]), ps[i])
    ensures TempoConsistent(ps)
  {
    forall i | 0 <= i < |ps|
      ensures ps[i].uninherited ==> ps[i].step != 0.0 && ps[i].baseStep == ps[i].step && ps[i].bpm == Trunc(60000.0 / ps[i].step)
      ensures 1 <= i && !ps[i].uninherited ==> ps[i].baseStep == ps[i - 1].baseStep && ps[i].bpm == ps[i - 1].bpm
    {
      if i == 0 {
        assert ReadsTempo(None, ps[0]);
      } else {
        assert ReadsTempo(Some(ps[i - 1]), ps[i]);
      }
    }
  }

  /**
   * The chain as the reader builds it: every tempo point carries its own beat
   * length and the tempo it implies, and every later speed point carries the
   * tempo and beat length of the FIRST point.
   */
  predicate AnchoredTempo(ps: seq<TimePoint>)
  {
    && (ps != [] ==> ps[0].uninherited)
    && (forall i :: 0 <= i < |ps| && ps[i].uninherited ==>
          ps[i].step != 0.0 && ps[i].baseStep == ps[i].step && ps[i].bpm == Trunc(60000.0 / ps[i].step))
    && (forall i :: 1 <= i < |ps| && !ps[i].uninherited ==> ps[i].baseStep == ps[0].baseStep && ps[i].bpm == ps[0].bpm)
  }

  /** The chain `reduce_map` builds is anchored at its first point. */
  lemma AsWrittenAnchored(lines: seq<string>)
    requires ReduceMapAsWritten(ReadTimePoint, lines).Ok?
    ensures AnchoredTempo(ReduceMapAsWritten(ReadTimePoint, lines).value)
  {
    ReadsTempoAlways();
    AsWrittenKeeps(ReadTimePoint, ReadsTempo, lines);
    AnchoredFromReads(ReduceMapAsWritten(ReadTimePoint, lines).value);
  }

  /** Every timing line read successfully carries the tempo `ReadsTempo` describes. */
  lemma ReadsTempoAlways()
    ensures forall prev, line :: ReadTimePoint(prev, line).Ok? ==> ReadsTempo(prev, ReadTimePoint(prev, line).value)
  {
    forall prev, line | ReadTimePoint(prev, line).Ok?
      ensures ReadsTempo(prev, ReadTimePoint(prev, line).value)
    {
      ReadFacts(prev, line, ReadTimePoint(prev, line).value);
    }
  }

  /** Points read the way `reduce_map` reads them form a chain anchored at the first. */
  lemma AnchoredFromReads(ps: seq<TimePoint>)
    requires ps != [] ==> ReadsTempo(None, ps[0])
    requires forall i :: 1 <= i < |ps| ==> ReadsTempo(Some(ps[0]), ps[i])
    ensures AnchoredTempo(ps)
  {
  }

  /** A point read after `prev` carries its own tempo, or, as a speed point, the tempo of `prev`. */
  predicate ReadsTempo(prev: Option<TimePoint>, p: TimePoint)
  {
    && (p.uninherited ==> p.step != 0.0 && p.baseStep == p.step && p.bpm == Trunc(60000.0 / p.step))
    && (!p.uninherited ==> prev.Some? && p.baseStep == prev.value.baseStep && p.bpm == prev.value.bpm)
  }

  /**
   * Whatever holds of every result of `cb` and the previous result it was
   * given holds of the first item read after nothing and of every later item
   * read after the first.
   */
  lemma AsWrittenKeeps<T, U>(cb: (Option<U>, T) -> Result<U>, inv: (Option<U>, U) -> bool, items: seq<T>)
    requires forall prev, x :: cb(prev, x).Ok? ==> inv(prev, cb(prev, x).value)
    requires ReduceMapAsWritten(cb, items).Ok?
    ensures var ps := ReduceMapAsWritten(cb, items).value;
      && (ps != [] ==> inv(None, ps[0]))
      && forall i :: 1 <= i < |ps| ==> inv(Some(ps[0]), ps[i])
  {
    var ps := ReduceMapAsWritten(cb, items).value;
    if ps != [] {
      assert cb(None, items[0]) == Ok(ps[0]);
      forall i | 1 <= i < |ps|
        ensures inv(Some(ps[0]), ps[i])
      {
        assert 1 <= i < |items|;
        var items' := items[1..];
        var first := cb(None, items[0]).value;
        var rest := Anchored(cb, first, items');
        assert ReduceMapAsWritten(cb, items) == Ok([first] + rest.value);
        assert items'[i - 1] == items[i];
        assert cb(Some(first), items'[i - 1]) == Ok(rest.value[i - 1]);
        var c := cb(Some(ps[0]), items[i]);
        assert c == Ok(ps[i]);
        assert inv(Some(ps[0]), c.value);
      }
    }
  }

  /** What a successfully read timing line carries: its own tempo, or the tempo of the point it was given. */
  lemma ReadFacts(prev: Option<TimePoint>, line: string, p: TimePoint)
    requires ReadTimePoint(prev, line) == Ok(p)
    ensures ReadsTempo(prev, p)
    ensures prev.None? ==> p.uninherited
  {
    var params := Split(line, ',');
    assert Derive(ParseInt(params[6]).value != 0, ParseInt(params[0]).value,
                  ParseReal(params[1]).value, ParseInt(params[2]).value, prev) == Ok(p);
  }

  /**
   * In a tempo-consistent chain a speed point has the beat length and tempo of
   * the nearest tempo point before it.
   */
  lemma {:induction false} GoverningTempo(ps: seq<TimePoint>, j: nat, i: nat)
    requires TempoConsistent(ps)
    requires j <= i < |ps| && ps[j].uninherited
    requires forall k :: j < k <= i ==> !ps[k].uninherited
    ensures ps[i].baseStep == ps[j].step && ps[i].bpm == ps[j].bpm
    decreases i
  {
    if i > j {
      GoverningTempo(ps, j, i - 1);
    }
  }

  /** A timing line read after two different previous points gives the same point when their tempos agree. */
  lemma ReadDependsOnTempoOnly(line: string, p: TimePoint, q: TimePoint)
    requires p.bpm == q.bpm && p.baseStep == q.baseStep
    ensures ReadTimePoint(Some(p), line) == ReadTimePoint(Some(q), line)
  {
    FromParamsDependsOnTempoOnly(Split(line, ','), p, q);
  }


  /**
   * When every timing point after the first is a speed point, the chain as
   * written and the running chain agree, so the difference only shows in
   * maps that change tempo.
   */
  lemma {:induction false} ChainsAgreeWithOneTempo(lines: seq<string>)
    requires RunningChain(ReadTimePoint, lines).Ok?
    requires var ps := RunningChain(ReadTimePoint, lines).value;
      forall i :: 1 <= i < |ps| ==> !ps[i].uninherited
    ensures ReduceMapAsWritten(ReadTimePoint, lines) == RunningChain(ReadTimePoint, lines)
  {
    var ps := RunningChain(ReadTimePoint, lines).value;
    if lines != [] {
      RunningChainTempo(lines);
      forall i | 1 <= i < |lines|
        ensures ReadTimePoint(Some(ps[0]), lines[i]) == Ok(ps[i])
      {
        ReadAfterFirst(lines, ps, i);
      }
      AsWrittenFromAnchored(ReadTimePoint, lines, ps);
    }
  }

  /** In a chain with a single tempo point, each point reads the same after the first point as after its predecessor. */
  lemma ReadAfterFirst(lines: seq<string>, ps: seq<TimePoint>, i: nat)
    requires |ps| == |lines| && 1 <= i < |lines| && TempoConsistent(ps)
    requires forall k :: 1 <= k < |ps| ==> !ps[k].uninherited
    requires ReadTimePoint(Some(ps[i - 1]), lines[i]) == Ok(ps[i])
    ensures ReadTimePoint(Some(ps[0]), lines[i]) == Ok(ps[i])
  {
    GoverningTempo(ps, 0, i - 1);
    ReadDependsOnTempoOnly(lines[i], ps[0], ps[i - 1]);
  }

  /** The chain as written yields `ps` when the first item gives `ps[0]` and every later one gives its entry after `ps[0]`. */
  lemma AsWrittenFromAnchored<T, U>(cb: (Option<U>, T) -> Result<U>, items: seq<T>, ps: seq<U>)
    requires items != [] && |ps| == |items| && cb(None, items[0]) == Ok(ps[0])
    requires forall i :: 1 <= i < |items| ==> cb(Some(ps[0]), items[i]) == Ok(ps[i])
    ensures ReduceMapAsWritten(cb, items) == Ok(ps)
  {
    forall i | 0 <= i < |items| - 1
      ensures cb(Some(ps[0]), items[1..][i]) == Ok(ps[1..][i])
    {
      assert items[1..][i] == items[i + 1];
    }
    AnchoredAgrees(cb, ps[0], items[1..], ps[1..]);
    assert ps == [ps[0]] + ps[1..];
  }

  /** The anchored run is the sequence of what `cb` gives each item after `first`. */
  lemma AnchoredAgrees<T, U>(cb: (Option<U>, T) -> Result<U>, first: U, items: seq<T>, ps: seq<U>)
    requires |ps| == |items|
    requires forall i :: 0 <= i < |items| ==> cb(Some(first), items[i]) == Ok(ps[i])
    ensures Anchored(cb, first, items) == Ok(ps)
  {
    var r := Anchored(cb, first, items);
    assert r.Ok?;
    assert r.value == ps;
  }

  /** Three timing points read as already parsed: start, step, speed, uninherited. */
  function ReadParsed(prev: Option<TimePoint>, row: (int, real, int, bool)): (r: Result<TimePoint>)
    ensures r == Derive(row.3, row.0, row.1, row.2, prev)
  {
    Derive(row.3, row.0, row.1, row.2, prev)
  }

  /**
   * On the map of `TempoChangeRows`, as written, the speed point keeps the
   * first beat length of 500 ms instead of 250 ms, and the chain is not
   * tempo-consistent.
   */
  lemma AsWrittenKeepsFirstTempo()
    ensures var rows := TempoChangeRows();
      && ReduceMapAsWritten(ReadParsed, rows).Ok?
      && ReduceMapAsWritten(ReadParsed, rows).value[2].baseStep == 500.0
      && !TempoConsistent(ReduceMapAsWritten(ReadParsed, rows).value)
  {
    var rows := TempoChangeRows();
    var p0 := Derive(true, 0, 500.0, 4, None).value;
    var p1 := Derive(true, 1000, 250.0, 4, Some(p0)).value;
    var p2 := Derive(false, 2000, -200.0, 4, Some(p0)).value;
    var tail := rows[1..];
    assert ReadParsed(Some(p0), tail[0]) == Ok(p1);
    assert ReadParsed(Some(p0), tail[1]) == Ok(p2);
    var anchored := Anchored(ReadParsed, p0, tail);
    assert anchored.Ok? && anchored.value == [p1, p2];
    assert ReadParsed(None, rows[0]) == Ok(p0);
    var asWritten := ReduceMapAsWritten(ReadParsed, rows);
    assert asWritten.Ok? && asWritten.value == [p0, p1, p2];
    assert asWritten.value[2].baseStep == 500.0 && asWritten.value[1].step == 250.0;
  }

  /** The same map read with the running chain: the speed point takes the beat length of 250 ms. */
  lemma RunningKeepsLatestTempo()
    ensures var rows := TempoChangeRows();
      && RunningChain(ReadParsed, rows).Ok?
      && RunningChain(ReadParsed, rows).value[2].baseStep == 250.0
  {
    var rows := TempoChangeRows();
    assert rows[..1][..0] == [] && rows[..2][..1] == rows[..1] && rows[..3][..2] == rows[..2] && rows[..3] == rows;
    assert RunningChain(ReadParsed, rows[..1][..0]) == Ok([]);
    var c1 := RunningChain(ReadParsed, rows[..1]);
    assert c1.Ok? && |c1.value| == 1;
    var c2 := RunningChain(ReadParsed, rows[..2]);
    assert c2.Ok? && c2.value[1].uninherited && c2.value[1].baseStep == 250.0;
    var c3 := RunningChain(ReadParsed, rows);
    assert c3.Ok?;
  }

  /** Timing rows of a map at 120 beats per minute that changes to 240 at one second and halves the slider speed at two. */
  function TempoChangeRows(): seq<(int, real, int, bool)>
  {
    [(0, 500.0, 4, true), (1000, 250.0, 4, true), (2000, -200.0, 4, false)]
  }

  /**
   * `__create_time_point`: the first parsed point is replaced by a tempo point
   * at time zero with its beat length and a speed point at its own start with
   * speed factor one that inherits from that tempo point.
   */
  function Bootstrap(point: TimePoint): (r: Result<(TimePoint, TimePoint)>)
    ensures r.Ok? <==> point.step != 0.0
    ensures r.Ok? ==> var (first, second) := r.value;
      && first.uninherited && first.start == 0 && first.step == point.step && first.speed == point.speed
      && first.baseStep == point.step && first.bpm == Trunc(60000.0 / point.step)
      && !second.uninherited && second.start == point.start && second.step == -100.0 && second.speed == point.speed
      && second.multiple == 1.0 && second.baseStep == first.baseStep && second.bpm == first.bpm
  {
    var (start, step, speed, _) := Fields(point);
    var first :- Derive(true, 0, step, speed, None);
    var second := Derive(false, start, -100.0, speed, Some(first)).value;
    Ok((first, second))
  }

  /** `(*create_time_point(parsed[0]), *parsed[1:])`. */
  function AssembleChain(parsed: seq<TimePoint>): (r: Result<seq<TimePoint>>)
    ensures parsed == [] ==> r == Err(IndexError)
    ensures r.Ok? ==> |r.value| == |parsed| + 1 && r.value[2..] == parsed[1..]
    ensures r.Ok? ==> Bootstrap(parsed[0]) == Ok((r.value[0], r.value[1]))
  {
    if parsed == [] then Err(IndexError)
    else
      var pair :- Bootstrap(parsed[0]);
      Ok([pair.0, pair.1] + parsed[1..])
  }

  /** Replacing the first point by the two bootstrap points keeps the chain tempo-consistent. */
  lemma AssembleKeepsTempo(parsed: seq<TimePoint>)
    requires TempoConsistent(parsed) && AssembleChain(parsed).Ok?
    ensures TempoConsistent(AssembleChain(parsed).value)
  {
    var ps := AssembleChain(parsed).value;
    forall i | 1 <= i < |ps| && !ps[i].uninherited
      ensures ps[i].baseStep == ps[i - 1].baseStep && ps[i].bpm == ps[i - 1].bpm
    {
      if i >= 2 {
        assert ps[i] == parsed[i - 1];
        if i == 2 {
          assert parsed[0].uninherited;
          assert Derive(true, 0, parsed[0].step, parsed[0].speed, None).Ok?;
        } else {
          assert ps[i - 1] == parsed[i - 2];
        }
      }
    }
    forall i | 0 <= i < |ps| && ps[i].uninherited
      ensures ps[i].step != 0.0 && ps[i].baseStep == ps[i].step && ps[i].bpm == Trunc(60000.0 / ps[i].step)
    {
      if i >= 2 {
        assert ps[i] == parsed[i - 1];
      }
    }
  }

  /** Replacing the first point by the two bootstrap points keeps the chain anchored at its first point. */
  lemma AssembleKeepsAnchor(parsed: seq<TimePoint>)
    requires AnchoredTempo(parsed) && AssembleChain(parsed).Ok?
    ensures AnchoredTempo(AssembleChain(parsed).value)
  {
    var ps := AssembleChain(parsed).value;
    assert ps[0].baseStep == parsed[0].baseStep && ps[0].bpm == parsed[0].bpm;
    forall i | 2 <= i < |ps|
      ensures ps[i] == parsed[i - 1]
    {
    }
  }

  // ---------------------------------------------------------------------------
  // Sections
  // ---------------------------------------------------------------------------

  /** The sections the reader keeps. */
  const NeedKeys: set<string> := {"TimingPoints", "HitObjects", "Difficulty"}

  /** The difficulty keys the reader keeps. */
  const DifficultyKeys: set<string> := {"SliderMultiplier", "SliderTickRate"}

  /** The position of the last occurrence of `c` in `s`, if any. */
  function LastIndex(s: string, c: char): (r: Option<nat>)
    ensures r.None? <==> c !in s
    ensures r.Some? ==> r.value < |s| && s[r.value] == c && c !in s[r.value + 1..]
  {
    if s == [] then None
    else if s[|s| - 1] == c then Some(|s| - 1)
    else
      var r := LastIndex(s[..|s| - 1], c);
      assert s[..|s| - 1] + [s[|s| - 1]] == s;
      r
  }

  /**
   * `re.match(r'\[(.*)\]', line)`: a line that opens with '[' and has a ']'
   * later on is a header; the greedy group runs to the last ']'.
   */
  function Header(line: string): (r: Option<string>)
    ensures r.Some? <==> |line| >= 1 && line[0] == '[' && ']' in line[1..]
    ensures r.Some? ==> && |line| >= |r.value| + 2 && line[..|r.value| + 2] == ['['] + r.value + [']']
                        && ']' !in line[|r.value| + 2..]
  {
    if |line| >= 1 && line[0] == '[' then
      match LastIndex(line[1..], ']')
      case None => None
      case Some(k) =>
        assert line[1..][k] == line[k + 1] == ']';
        assert line[..k + 2] == line[..k + 1] + [line[k + 1]];
        assert line[..k + 1] == [line[0]] + line[1..k + 1];
        assert line[1..][k + 1..] == line[k + 2..];
        Some(line[1..k + 1])
    else None
  }

  /** The reader's state between lines: the sections collected, the current section name, whether it is kept. */
  datatype Scan = Scan(sections: map<string, seq<string>>, current: string, need: bool)

  /** Only needed sections are collected, and while collecting, the current one has an entry. */
  predicate ScanValid(st: Scan)
  {
    && st.sections.Keys <= NeedKeys
    && (st.need ==> st.current in st.sections)
  }

  /** The reader before the first line. */
  const Initial: Scan := Scan(map[], "", false)

  /**
   * One line of the reader: a needed header opens a fresh list and is not
   * itself kept; any other header stops collection; a non-blank line is
   * stripped and kept while collection is on.
   */
  function Step(st: Scan, line: string): (r: Scan)
    requires ScanValid(st)
    ensures ScanValid(r)
    ensures Header(line).Some? ==> r.current == Header(line).value && (r.need <==> Header(line).value in NeedKeys)
    ensures Header(line).None? ==> r.current == st.current && r.need == st.need
  {
    match Header(line)
    case Some(name) =>
      if name in NeedKeys then Scan(st.sections[name := []], name, true)
      else Scan(st.sections, name, false)
    case None =>
      if st.need && |Strip(line)| > 0 then
        st.(sections := st.sections[st.current := st.sections[st.current] + [Strip(line)]])
      else st
  }

  /** The reader after the given lines, starting from `st`. */
  function Run(st: Scan, lines: seq<string>): (r: Scan)
    requires ScanValid(st)
    ensures ScanValid(r)
  {
    if lines == [] then st else Step(Run(st, lines[..|lines| - 1]), lines[|lines| - 1])
  }

  /** What one non-header line adds to the section being collected. */
  function Kept(line: string): seq<string>
  {
    if |Strip(line)| > 0 then [Strip(line)] else []
  }

  /** The stripped, non-blank lines of a section body, in order. */
  function NonBlank(body: seq<string>): (r: seq<string>)
    ensures |r| <= |body|
    ensures forall k :: 0 <= k < |r| ==> |r[k]| > 0
  {
    if body == [] then []
    else NonBlank(body[..|body| - 1]) + Kept(body[|body| - 1])
  }

  /** No line of `body` is a header. */
  predicate NoHeaders(body: seq<string>)
  {
    forall i :: 0 <= i < |body| ==> Header(body[i]).None?
  }

  /** A line that is not a header, read while collecting, appends what it keeps to the current section. */
  lemma StepCollects(st: Scan, line: string)
    requires ScanValid(st) && st.need && Header(line).None?
    ensures Step(st, line).sections == st.sections[st.current := st.sections[st.current] + Kept(line)]
    ensures Step(st, line).current == st.current && Step(st, line).need
  {
    if |Strip(line)| == 0 {
      assert st.sections[st.current] + [] == st.sections[st.current];
      assert st.sections[st.current := st.sections[st.current]] == st.sections;
    }
  }

  /** Without its last line, a body without headers still has none; nor is its last line one. */
  lemma NoHeadersFront(body: seq<string>)
    requires body != [] && NoHeaders(body)
    ensures NoHeaders(body[..|body| - 1]) && Header(body[|body| - 1]).None?
  {
    var front := body[..|body| - 1];
    forall i | 0 <= i < |front|
      ensures Header(front[i]).None?
    {
      assert front[i] == body[i];
    }
  }

  /** Lines that are not headers, read while collecting, add their stripped non-blank forms to the current section. */
  lemma {:induction false} CollectBody(st: Scan, body: seq<string>)
    requires ScanValid(st) && st.need && NoHeaders(body)
    ensures Run(st, body).sections == st.sections[st.current := st.sections[st.current] + NonBlank(body)]
    ensures Run(st, body).current == st.current && Run(st, body).need
  {
    if body == [] {
      var cur := st.sections[st.current];
      assert cur + [] == cur;
      assert st.sections[st.current := cur] == st.sections;
    } else {
      NoHeadersFront(body);
      CollectBody(st, body[..|body| - 1]);
      CollectLast(st, body, st.sections[st.current]);
    }
  }

  /** The step of `CollectBody` for the last line of `body`; `cur` is what the section held before. */
  lemma CollectLast(st: Scan, body: seq<string>, cur: seq<string>)
    requires ScanValid(st) && st.need && body != [] && Header(body[|body| - 1]).None?
    requires cur == st.sections[st.current]
    requires Run(st, body[..|body| - 1]).sections == st.sections[st.current := cur + NonBlank(body[..|body| - 1])]
    requires Run(st, body[..|body| - 1]).current == st.current && Run(st, body[..|body| - 1]).need
    ensures Run(st, body).sections == st.sections[st.current := cur + NonBlank(body)]
    ensures Run(st, body).current == st.current && Run(st, body).need
  {
    var front, l := body[..|body| - 1], body[|body| - 1];
    StepCollects(Run(st, front), l);
    var before := cur + NonBlank(front);
    MapUpdateTwice(st.sections, st.current, before, before + Kept(l));
    AppendAssoc(cur, NonBlank(front), Kept(l));
  }

  /**
   * A needed header followed by lines that are not headers: the section
   * holds exactly the body's stripped non-blank lines, and no other section
   * changes.
   */
  lemma NeededSection(st: Scan, header: string, body: seq<string>)
    requires ScanValid(st) && NoHeaders(body)
    requires Header(header).Some? && Header(header).value in NeedKeys
    ensures Run(st, [header] + body).sections == st.sections[Header(header).value := NonBlank(body)]
    ensures Run(st, [header] + body).need && Run(st, [header] + body).current == Header(header).value
  {
    var name := Header(header).value;
    var collecting := Step(st, header);
    assert collecting == Scan(st.sections[name := []], name, true);
    RunOne(st, header);
    RunAppend(st, [header], body);
    CollectBody(collecting, body);
    var nb := NonBlank(body);
    assert collecting.sections[name] + nb == nb;
    var after := Run(collecting, body);
    assert after.sections == st.sections[name := []][name := nb];
    MapUpdateTwice(st.sections, name, [], nb);
    assert Run(st, [header] + body) == after;
  }

  /** Appending is associative. */
  lemma AppendAssoc<T>(a: seq<T>, b: seq<T>, c: seq<T>)
    ensures (a + b) + c == a + (b + c)
  {
  }

  /** A second update of the same key overrides the first. */
  lemma MapUpdateTwice<K, V>(m: map<K, V>, k: K, a: V, b: V)
    ensures m[k := a][k := b] == m[k := b]
  {
  }

  /** Reading a single line is one step of the reader. */
  lemma RunOne(st: Scan, line: string)
    requires ScanValid(st)
    ensures Run(st, [line]) == Step(st, line)
  {
    assert [line][..0] == [];
  }

  /** A header of a section that is not needed, followed by lines that are not headers, adds nothing. */
  lemma {:induction false} SkippedSection(st: Scan, header: string, body: seq<string>)
    requires ScanValid(st) && NoHeaders(body)
    requires Header(header).Some? && Header(header).value !in NeedKeys
    ensures Run(st, [header] + body).sections == st.sections
    ensures !Run(st, [header] + body).need
  {
    if body == [] {
      assert Run(st, [header]) == Step(Run(st, []), header);
    } else {
      var front := body[..|body| - 1];
      var all := [header] + body;
      assert all[..|all| - 1] == [header] + front;
      assert all[|all| - 1] == body[|body| - 1];
      assert Header(body[|body| - 1]).None?;
      SkippedSection(st, header, front);
    }
  }

  /** Reading lines in two parts is reading them in one go. */
  lemma {:induction false} RunAppend(st: Scan, a: seq<string>, b: seq<string>)
    requires ScanValid(st)
    ensures Run(st, a + b) == Run(Run(st, a), b)
  {
    if b != [] {
      assert (a + b)[..|a + b| - 1] == a + b[..|b| - 1];
      RunAppend(st, a, b[..|b| - 1]);
    } else {
      assert a + b == a;
    }
  }

  /** The section-extraction loop of the reader. */
  method ExtractSections(lines: seq<string>) returns (sections: map<string, seq<string>>)
    ensures sections == Run(Initial, lines).sections
    ensures sections.Keys <= NeedKeys
  {
    sections := map[];
    var current := "";
    var need := false;
    var i := 0;
    while i < |lines|
      invariant 0 <= i <= |lines|
      invariant Scan(sections, current, need) == Run(Initial, lines[..i])
    {
      assert lines[..i + 1][..i] == lines[..i];
      var line := lines[i];
      var header := Header(line);
      if header.Some? {
        current := header.value;
        if current in NeedKeys {
          sections := sections[current := []];
          need := true;
          i := i + 1;
          continue;
        } else {
          need := false;
        }
      }
      if need && |Strip(line)| > 0 {
        sections := sections[current := sections[current] + [Strip(line)]];
      }
      i := i + 1;
    }
    assert lines[..i] == lines;
  }

  // ---------------------------------------------------------------------------
  // Difficulty
  // ---------------------------------------------------------------------------

  /** The text before the first ':' of a difficulty line. */
  function KeyOf(line: string): string
  {
    Split(line, ':')[0]
  }

  /** Whether the difficulty filter keeps one line: it is non-empty and its key is a kept difficulty key. */
  predicate KeptLine(l: string)
  {
    |l| > 0 && KeyOf(l) in DifficultyKeys
  }

  /** The difficulty filter: the kept lines, in order. */
  function KeepDifficulty(lines: seq<string>): (r: seq<string>)
    ensures |r| <= |lines|
    ensures forall x {:trigger x in r} :: x in r <==> x in lines && KeptLine(x)
  {
    if lines == [] then []
    else
      var init, l := lines[..|lines| - 1], lines[|lines| - 1];
      assert lines == init + [l];
      KeepDifficulty(init) + (if KeptLine(l) then [l] else [])
  }

  /** Filtering one more line appends it when it is kept. */
  lemma KeepDifficultySnoc(ls: seq<string>, l: string)
    ensures KeepDifficulty(ls + [l]) == KeepDifficulty(ls) + (if KeptLine(l) then [l] else [])
  {
    assert (ls + [l])[..|ls|] == ls;
  }

  /** Filtering a concatenation filters each part: the kept lines stay in their order. */
  lemma {:induction false} KeepDifficultyAppend(a: seq<string>, b: seq<string>)
    ensures KeepDifficulty(a + b) == KeepDifficulty(a) + KeepDifficulty(b)
  {
    if b == [] {
      assert a + b == a;
    } else {
      var init, l := b[..|b| - 1], b[|b| - 1];
      var tail := if KeptLine(l) then [l] else [];
      assert KeepDifficulty(a + b) == KeepDifficulty(a + init) + tail by {
        assert a + b == (a + init) + [l];
        KeepDifficultySnoc(a + init, l);
      }
      assert KeepDifficulty(b) == KeepDifficulty(init) + tail by {
        assert b == init + [l];
        KeepDifficultySnoc(init, l);
      }
      KeepDifficultyAppend(a, init);
    }
  }

  /** A single line is kept exactly when it is non-empty and its key is a difficulty key. */
  lemma KeepDifficultyOne(l: string)
    ensures KeepDifficulty([l]) == if KeptLine(l) then [l] else []
  {
    assert [l][..0] == [];
  }

  /**
   * `dict(map(lambda i: i.split(':'), lines))`: each line must split into a
   * key and a value; a later line overrides an earlier one with the same key.
   */
  function DifficultyDict(lines: seq<string>): (r: Result<map<string, string>>)
    ensures r.Ok? <==> forall i :: 0 <= i < |lines| ==> |Split(lines[i], ':')| == 2
    ensures r.Err? ==> r.error == ValueError
  {
    if lines == [] then Ok(map[])
    else
      var d :- DifficultyDict(lines[..|lines| - 1]);
      var parts := Split(lines[|lines| - 1], ':');
      if |parts| != 2 then Err(ValueError) else Ok(d[parts[0] := parts[1]])
  }

  /** The dictionary has an entry for the key of every line. */
  lemma {:induction false} DifficultyDictHasKeys(lines: seq<string>)
    requires DifficultyDict(lines).Ok?
    ensures forall i :: 0 <= i < |lines| ==> KeyOf(lines[i]) in DifficultyDict(lines).value
  {
    if lines != [] {
      var front := lines[..|lines| - 1];
      DifficultyDictHasKeys(front);
      forall i | 0 <= i < |lines| - 1
        ensures KeyOf(lines[i]) in DifficultyDict(lines).value
      {
        assert front[i] == lines[i];
      }
    }
  }

  /** Every key of the dictionary is the key of some line. */
  lemma {:induction false} DifficultyDictOnlyKeys(lines: seq<string>, k: string)
    requires DifficultyDict(lines).Ok? && k in DifficultyDict(lines).value
    ensures exists i :: 0 <= i < |lines| && KeyOf(lines[i]) == k
  {
    var last := |lines| - 1;
    if k != KeyOf(lines[last]) {
      var front := lines[..last];
      DifficultyDictOnlyKeys(front, k);
      var i :| 0 <= i < |front| && KeyOf(front[i]) == k;
      assert lines[i] == front[i];
    }
  }

  /** The value of a key comes from the last line with that key. */
  lemma {:induction false} DifficultyDictLastWins(lines: seq<string>, i: nat)
    requires DifficultyDict(lines).Ok? && i < |lines|
    requires forall j :: i < j < |lines| ==> KeyOf(lines[j]) != KeyOf(lines[i])
    ensures KeyOf(lines[i]) in DifficultyDict(lines).value
    ensures DifficultyDict(lines).value[KeyOf(lines[i])] == Split(lines[i], ':')[1]
  {
    var last := |lines| - 1;
    if i < last {
      var front := lines[..last];
      assert front[i] == lines[i];
      assert KeyOf(lines[last]) != KeyOf(lines[i]);
      DifficultyDictLastWins(front, i);
    }
  }

  // ---------------------------------------------------------------------------
  // The whole reader
  // ---------------------------------------------------------------------------

  /** A read beatmap: the timing chain, the difficulty, and one entry per hit-object line. */
  datatype File = File(timePoints: seq<TimePoint>, difficulty: Difficulty, objects: seq<Option<HitObject>>)

  /** `[HitObject.from_source(line, time_points, difficulty) for line in lines]`, the first failure winning. */
  method BuildObjects(env: Numerics, hitLines: seq<string>, timePoints: seq<TimePoint>, difficulty: Difficulty)
    returns (r: Result<seq<Option<HitObject>>>)
    ensures r.Ok? ==> |r.value| == |hitLines| && forall i :: 0 <= i < |hitLines| ==> KindMatches(hitLines[i], r.value[i])
    ensures r == MapResult((line: string) => HitObjectOf(env, line, timePoints, difficulty), hitLines)
  {
    ghost var build := (line: string) => HitObjectOf(env, line, timePoints, difficulty);
    var objects: seq<Option<HitObject>> := [];
    var i := 0;
    while i < |hitLines|
      invariant 0 <= i <= |hitLines|
      invariant MapResult(build, hitLines[..i]) == Ok(objects)
    {
      var o := FromSource(env, hitLines[i], timePoints, difficulty);
      MapResultExtends(build, hitLines, i, objects, o);
      if o.Err? {
        MapResultPrefixFails(build, hitLines, i + 1);
        return Err(o.error);
      }
      objects := objects + [o.value];
      i := i + 1;
    }
    assert hitLines[..i] == hitLines;
    BuiltKinds(env, hitLines, timePoints, difficulty);
    return Ok(objects);
  }

  /** Every object built from the hit-object lines has the kind its line's type bits choose. */
  lemma BuiltKinds(env: Numerics, hitLines: seq<string>, timePoints: seq<TimePoint>, difficulty: Difficulty)
    ensures var r := MapResult((line: string) => HitObjectOf(env, line, timePoints, difficulty), hitLines);
      r.Ok? ==> |r.value| == |hitLines| && forall i :: 0 <= i < |hitLines| ==> KindMatches(hitLines[i], r.value[i])
  {
    var build := (line: string) => HitObjectOf(env, line, timePoints, difficulty);
    var r := MapResult(build, hitLines);
    if r.Ok? {
      forall i | 0 <= i < |hitLines|
        ensures KindMatches(hitLines[i], r.value[i])
      {
        assert build(hitLines[i]) == Ok(r.value[i]);
      }
    }
  }

  /**
   * `File.__init`: the sections, the difficulty filter, the timing chain and
   * its bootstrap points, the difficulty record, then every hit object in
   * file order. The record behind the difficulty dictionary is built by
   * `readDifficulty`.
   */
  method Load(env: Numerics, lines: seq<string>, readDifficulty: map<string, string> -> Result<Difficulty>)
    returns (r: Result<File>)
    ensures "Difficulty" !in Run(Initial, lines).sections ==> r == Err(KeyError)
    ensures var sections := Run(Initial, lines).sections;
      "Difficulty" in sections && "TimingPoints" !in sections ==> r == Err(KeyError)
    ensures var sections := Run(Initial, lines).sections;
      ("Difficulty" in sections && "TimingPoints" in sections
       && ReduceMapAsWritten(ReadTimePoint, sections["TimingPoints"]).Err?) ==>
        r == Err(ReduceMapAsWritten(ReadTimePoint, sections["TimingPoints"]).error)
    ensures var sections := Run(Initial, lines).sections;
      ("Difficulty" in sections && "TimingPoints" in sections
       && ReduceMapAsWritten(ReadTimePoint, sections["TimingPoints"]) == Ok([])) ==> r == Err(IndexError)
    ensures var sections := Run(Initial, lines).sections;
      ("Difficulty" in sections && "TimingPoints" in sections
       && ReduceMapAsWritten(ReadTimePoint, sections["TimingPoints"]).Ok?
       && AssembleChain(ReduceMapAsWritten(ReadTimePoint, sections["TimingPoints"]).value).Ok?
       && DifficultyDict(KeepDifficulty(sections["Difficulty"])).Ok?
       && readDifficulty(DifficultyDict(KeepDifficulty(sections["Difficulty"])).value).Ok?
       && "HitObjects" !in sections) ==> r == Err(KeyError)
    ensures var sections := Run(Initial, lines).sections;
      ("Difficulty" in sections && "TimingPoints" in sections
       && ReduceMapAsWritten(ReadTimePoint, sections["TimingPoints"]).Ok?
       && AssembleChain(ReduceMapAsWritten(ReadTimePoint, sections["TimingPoints"]).value).Err?) ==>
        r == Err(AssembleChain(ReduceMapAsWritten(ReadTimePoint, sections["TimingPoints"]).value).error)
    ensures var sections := Run(Initial, lines).sections;
      ("Difficulty" in sections && "TimingPoints" in sections
       && ReduceMapAsWritten(ReadTimePoint, sections["TimingPoints"]).Ok?
       && AssembleChain(ReduceMapAsWritten(ReadTimePoint, sections["TimingPoints"]).value).Ok?
       && DifficultyDict(KeepDifficulty(sections["Difficulty"])).Err?) ==>
        r == Err(DifficultyDict(KeepDifficulty(sections["Difficulty"])).error)
    ensures var sections := Run(Initial, lines).sections;
      ("Difficulty" in sections && "TimingPoints" in sections
       && ReduceMapAsWritten(ReadTimePoint, sections["TimingPoints"]).Ok?
       && AssembleChain(ReduceMapAsWritten(ReadTimePoint, sections["TimingPoints"]).value).Ok?
       && DifficultyDict(KeepDifficulty(sections["Difficulty"])).Ok?
       && readDifficulty(DifficultyDict(KeepDifficulty(sections["Difficulty"])).value).Err?) ==>
        r == Err(readDifficulty(DifficultyDict(KeepDifficulty(sections["Difficulty"])).value).error)
    ensures var sections := Run(Initial, lines).sections;
      ("Difficulty" in sections && "TimingPoints" in sections && "HitObjects" in sections
       && ReduceMapAsWritten(ReadTimePoint, sections["TimingPoints"]).Ok?
       && AssembleChain(ReduceMapAsWritten(ReadTimePoint, sections["TimingPoints"]).value).Ok?
       && DifficultyDict(KeepDifficulty(sections["Difficulty"])).Ok?
       && readDifficulty(DifficultyDict(KeepDifficulty(sections["Difficulty"])).value).Ok?) ==>
        var timePoints := AssembleChain(ReduceMapAsWritten(ReadTimePoint, sections["TimingPoints"]).value).value;
        var difficulty := readDifficulty(DifficultyDict(KeepDifficulty(sections["Difficulty"])).value).value;
        var built := MapResult((line: string) => HitObjectOf(env, line, timePoints, difficulty), sections["HitObjects"]);
        r == if built.Err? then Err(built.error) else Ok(File(timePoints, difficulty, built.value))
    ensures r.Ok? ==> var sections := Run(Initial, lines).sections;
      "HitObjects" in sections &&
      MapResult((line: string) => HitObjectOf(env, line, r.value.timePoints, r.value.difficulty), sections["HitObjects"])
        == Ok(r.value.objects)
    ensures r.Ok? ==> var sections := Run(Initial, lines).sections;
      && "TimingPoints" in sections && "Difficulty" in sections && "HitObjects" in sections
      && ReduceMapAsWritten(ReadTimePoint, sections["TimingPoints"]).Ok?
      && AssembleChain(ReduceMapAsWritten(ReadTimePoint, sections["TimingPoints"]).value) == Ok(r.value.timePoints)
      && DifficultyDict(KeepDifficulty(sections["Difficulty"])).Ok?
      && readDifficulty(DifficultyDict(KeepDifficulty(sections["Difficulty"])).value) == Ok(r.value.difficulty)
      && |r.value.objects| == |sections["HitObjects"]|
      && forall i :: 0 <= i < |r.value.objects| ==> KindMatches(sections["HitObjects"][i], r.value.objects[i])
    ensures r.Ok? ==> AnchoredTempo(r.value.timePoints) && r.value.timePoints[0].start == 0
  {
    var sections := ExtractSections(lines);
    if "Difficulty" !in sections {
      return Err(KeyError);
    }
    var kept := KeepDifficulty(sections["Difficulty"]);
    if "TimingPoints" !in sections {
      return Err(KeyError);
    }
    var parsed :- ReduceMap(ReadTimePoint, sections["TimingPoints"]);
    AsWrittenAnchored(sections["TimingPoints"]);
    var timePoints :- AssembleChain(parsed);
    AssembleKeepsAnchor(parsed);
    var dict :- DifficultyDict(kept);
    var difficulty :- readDifficulty(dict);
    if "HitObjects" !in sections {
      return Err(KeyError);
    }
    var objects :- BuildObjects(env, sections["HitObjects"], timePoints, difficulty);
    return Ok(File(timePoints, difficulty, objects));
  }

  // ---------------------------------------------------------------------------
  // Iteration
  // ---------------------------------------------------------------------------

  /** The index of the first missing object, or the number of objects when none is missing. */
  function FirstMissing(objects: seq<Option<HitObject>>): (k: nat)
    ensures k <= |objects|
    ensures forall i :: 0 <= i < k ==> objects[i].Some?
    ensures k < |objects| ==> objects[k].None?
  {
    if objects == [] || objects[0].None? then 0 else 1 + FirstMissing(objects[1..])
  }

  /** The samples of each object, in order. */
  function SampleLists(objects: seq<Option<HitObject>>): (r: seq<seq<(Pixel, int)>>)
    requires forall i :: 0 <= i < |objects| ==> objects[i].Some?
    ensures |r| == |objects| && forall i :: 0 <= i < |objects| ==> r[i] == Samples(objects[i].value)
  {
    seq(|objects|, i requires 0 <= i < |objects| => Samples(objects[i].value))
  }

  /**
   * `File.__iter__`: every object's samples in file order; an object line
   * that yielded nothing stops the iteration with a TypeError once the
   * samples before it have been produced.
   */
  method Iterate(objects: seq<Option<HitObject>>) returns (samples: seq<(Pixel, int)>, failure: Option<Error>)
    ensures var k := FirstMissing(objects);
      && samples == Flatten(SampleLists(objects[..k]))
      && (failure.None? <==> k == |objects|)
      && (failure.Some? ==> failure.value == TypeError)
  {
    var k := FirstMissing(objects);
    samples := [];
    var i := 0;
    while i < |objects|
      invariant 0 <= i <= k
      invariant samples == Flatten(SampleLists(objects[..i]))
    {
      if objects[i].None? {
        assert i == k;
        return samples, Some(TypeError);
      }
      SampleListsSnoc(objects, i);
      samples := samples + Samples(objects[i].value);
      i := i + 1;
    }
    assert i == k;
    return samples, None;
  }

  /** One more object adds its samples after those of the objects before it. */
  lemma SampleListsSnoc(objects: seq<Option<HitObject>>, i: nat)
    requires i < |objects| && forall j :: 0 <= j <= i ==> objects[j].Some?
    ensures Flatten(SampleLists(objects[..i + 1])) == Flatten(SampleLists(objects[..i])) + Samples(objects[i].value)
  {
    assert SampleLists(objects[..i + 1]) == SampleLists(objects[..i]) + [Samples(objects[i].value)];
    FlattenAppend(SampleLists(objects[..i]), Samples(objects[i].value));
  }

  /** Flattening keeps every item: its length is the total of the parts' lengths. */
  lemma {:induction false} FlattenLength(xss: seq<seq<(Pixel, int)>>)
    ensures |Flatten(xss)| == SumLengths(xss)
  {
    if xss != [] {
      FlattenLength(xss[..|xss| - 1]);
    }
  }
}
