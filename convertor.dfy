/**
 * The frame synchronizer: the samples of every hit object, in file order,
 * walked against a 60 frames-per-second clock. Each clock tick reads one video
 * frame and labels it with the current sample's position or with nothing.
 * Then come the click and position lists of the dataset export, and the
 * reading of a converter's configuration rows.
 *
 * The video capture is given as two functions of the number of frames read so
 * far: whether it reports itself open, and the frame that the next read
 * returns.
 */
module Convertor {
  import opened Builtins
  import opened Pixels
  import opened Objects
  import opened Beatmap

  // ---------------------------------------------------------------------------
  // The frame clock and the label rule
  // ---------------------------------------------------------------------------

  /** A gap between samples below this many frames counts as dense: every frame is labelled. */
  const DenseGap: real := 1.3

  /** A frame this many frames or less before a sample is labelled with it. */
  const Lead: real := 0.3

  /** The nominal time of frame `k`: the clock starts `delay` milliseconds early. */
  function NominalTime(delay: int, k: nat): real
  {
    -(delay as real) + FrameInterval * (k as real)
  }

  /** The clock only moves forward. */
  lemma NominalTimeMonotone(delay: int, j: nat, k: nat)
    requires j <= k
    ensures NominalTime(delay, j) <= NominalTime(delay, k)
  {
    assert FrameInterval * (k as real) - FrameInterval * (j as real) == FrameInterval * ((k - j) as real);
  }

  /**
   * The label of the frame that brings the counter to `k` while the sample
   * `(pos, t)` is current and the previous sample was at `prevTime`.
   */
  function Label(pos: Pixel, t: int, prevTime: int, delay: int, k: nat): Option<Pixel>
  {
    if (t - prevTime) as real / FrameInterval < DenseGap || (NominalTime(delay, k) - t as real) / FrameInterval > -Lead
    then Some(pos)
    else None
  }

  /**
   * A label is the current position or nothing, and it is the position
   * exactly when the samples are less than 1.3 frames apart or the frame's
   * nominal time is later than 0.3 frames before the sample.
   */
  lemma LabelRule(pos: Pixel, t: int, prevTime: int, delay: int, k: nat)
    ensures Label(pos, t, prevTime, delay, k) in {Some(pos), None}
    ensures Label(pos, t, prevTime, delay, k).Some? <==>
              || (t - prevTime) as real < DenseGap * FrameInterval
              || NominalTime(delay, k) > t as real - Lead * FrameInterval
  {
    var gap, ahead := (t - prevTime) as real, NominalTime(delay, k) - t as real;
    assert gap / FrameInterval < DenseGap <==> gap < DenseGap * FrameInterval;
    assert ahead / FrameInterval > -Lead <==> ahead > -Lead * FrameInterval;
  }

  /**
   * The counter after the inner loop for a sample at `t`: the first count, not
   * below `frames`, whose nominal time is not before `t`.
   */
  function Target(frames: nat, delay: int, t: int): (r: nat)
    ensures frames <= r
    ensures NominalTime(delay, r) >= t as real
    ensures r > frames ==> NominalTime(delay, r - 1) < t as real
  {
    var x := (t + delay) as real / FrameInterval;
    var c := Ceil(x);
    assert FrameInterval * (c as real) >= FrameInterval * x;
    assert FrameInterval * ((c - 1) as real) < FrameInterval * x;
    if c > frames then c
    else
      assert FrameInterval * (frames as real) >= FrameInterval * (c as real) by {
        assert FrameInterval * (frames as real) - FrameInterval * (c as real) == FrameInterval * ((frames - c) as real);
      }
      frames
  }

  /** The frames `lo + 1 .. hi` read and labelled for one sample, in order. */
  function Emit<F>(read: nat -> F, pos: Pixel, t: int, prevTime: int, delay: int, lo: nat, hi: nat): (r: seq<(F, Option<Pixel>)>)
    requires lo <= hi
    decreases hi
    ensures |r| == hi - lo
  {
    if lo == hi then []
    else Emit(read, pos, t, prevTime, delay, lo, hi - 1) + [(read(hi - 1), Label(pos, t, prevTime, delay, hi))]
  }

  /** The `j`-th pair for a sample holds the frame read `j`-th and the label of the count after that read. */
  lemma {:induction false} EmitAt<F>(read: nat -> F, pos: Pixel, t: int, prevTime: int, delay: int, lo: nat, hi: nat, j: nat)
    requires lo <= hi && j < hi - lo
    decreases hi
    ensures Emit(read, pos, t, prevTime, delay, lo, hi)[j] == (read(lo + j), Label(pos, t, prevTime, delay, lo + j + 1))
  {
    if j < hi - 1 - lo {
      EmitAt(read, pos, t, prevTime, delay, lo, hi - 1, j);
    }
  }

  /** What the synchronizer has produced when it stops, and where its counter and capture stand. */
  datatype Outcome<F> = Outcome(pairs: seq<(F, Option<Pixel>)>, frames: nat, consumedAll: bool)

  /** `pairs` produced before an outcome. */
  function Then<F>(pairs: seq<(F, Option<Pixel>)>, o: Outcome<F>): Outcome<F>
  {
    Outcome(pairs + o.pairs, o.frames, o.consumedAll)
  }

  /**
   * The synchronizer from counter `frames` and previous sample time
   * `prevTime`: before each sample the capture is asked whether it is open (it
   * stops if not); then frames are read until the clock reaches the sample.
   * The frames come out in the order they are read, one per count.
   */
  function Sync<F>(samples: seq<(Pixel, int)>, delay: int, isOpen: nat -> bool, read: nat -> F, frames: nat, prevTime: int): (r: Outcome<F>)
    ensures frames <= r.frames && |r.pairs| == r.frames - frames
    ensures forall i :: 0 <= i < |r.pairs| ==> r.pairs[i].0 == read(frames + i)
    decreases |samples|
  {
    if samples == [] then Outcome([], frames, true)
    else if !isOpen(frames) then Outcome([], frames, false)
    else
      var (pos, t) := samples[0];
      var next := Target(frames, delay, t);
      var head := Emit(read, pos, t, prevTime, delay, frames, next);
      var rest := Sync(samples[1..], delay, isOpen, read, next, t);
      forall j | 0 <= j < |head|
        ensures head[j].0 == read(frames + j)
      {
        EmitAt(read, pos, t, prevTime, delay, frames, next, j);
      }
      Outcome(head + rest.pairs, rest.frames, rest.consumedAll)
  }

  /** One sample of the synchronizer with the capture open: its frames, then the rest of the samples. */
  lemma SyncStep<F>(samples: seq<(Pixel, int)>, delay: int, isOpen: nat -> bool, read: nat -> F, frames: nat, prevTime: int)
    requires samples != [] && isOpen(frames)
    ensures var (pos, t) := samples[0];
      var next := Target(frames, delay, t);
      Sync(samples, delay, isOpen, read, frames, prevTime)
        == Then(Emit(read, pos, t, prevTime, delay, frames, next), Sync(samples[1..], delay, isOpen, read, next, t))
  {
  }

  /** One sample of the outer loop moves its emitted frames from the pending run to the output so far. */
  lemma SyncAdvance<F>(samples: seq<(Pixel, int)>, delay: int, isOpen: nat -> bool, read: nat -> F, i: nat, out: seq<(F, Option<Pixel>)>, frames: nat, prevTime: int)
    requires i < |samples| && isOpen(frames)
    requires Sync(samples, delay, isOpen, read, 0, 0) == Then(out, Sync(samples[i..], delay, isOpen, read, frames, prevTime))
    ensures var (pos, t) := samples[i];
      var next := Target(frames, delay, t);
      Sync(samples, delay, isOpen, read, 0, 0)
        == Then(out + Emit(read, pos, t, prevTime, delay, frames, next), Sync(samples[i + 1..], delay, isOpen, read, next, t))
  {
    var (pos, t) := samples[i];
    var next := Target(frames, delay, t);
    var head := Emit(read, pos, t, prevTime, delay, frames, next);
    SyncStep(samples[i..], delay, isOpen, read, frames, prevTime);
    assert samples[i..][1..] == samples[i + 1..];
    var rest := Sync(samples[i + 1..], delay, isOpen, read, next, t);
    assert out + (head + rest.pairs) == (out + head) + rest.pairs;
  }

  /** When the capture is closed or the samples are used up, the output so far is the whole output. */
  lemma SyncStops<F>(samples: seq<(Pixel, int)>, delay: int, isOpen: nat -> bool, read: nat -> F, i: nat, out: seq<(F, Option<Pixel>)>, frames: nat, prevTime: int)
    requires i <= |samples| && (i == |samples| || !isOpen(frames))
    requires Sync(samples, delay, isOpen, read, 0, 0) == Then(out, Sync(samples[i..], delay, isOpen, read, frames, prevTime))
    ensures Sync(samples, delay, isOpen, read, 0, 0) == Outcome(out, frames, i == |samples|)
  {
    assert out + [] == out;
  }

  /**
   * The inner loop of `Convertor.__iter__` for the sample `(position, time)`:
   * while the clock is before the sample, read a frame, count it and label it.
   */
  method CatchUp<F>(read: nat -> F, position: Pixel, time: int, prevTime: int, delay: int, frames0: nat)
    returns (emitted: seq<(F, Option<Pixel>)>, frames: nat)
    ensures frames == Target(frames0, delay, time)
    ensures emitted == Emit(read, position, time, prevTime, delay, frames0, frames)
  {
    var start := -(delay as real);
    ghost var target := Target(frames0, delay, time);
    frames := frames0;
    emitted := [];
    while start + FrameInterval * (frames as real) < time as real
      invariant frames0 <= frames <= target
      invariant emitted == Emit(read, position, time, prevTime, delay, frames0, frames)
      decreases target - frames
    {
      var frame := read(frames);
      frames := frames + 1;
      var pos: Option<Pixel> := None;
      if (time - prevTime) as real / FrameInterval < DenseGap
         || (start + FrameInterval * (frames as real) - time as real) / FrameInterval > -Lead {
        pos := Some(position);
      }
      emitted := emitted + [(frame, pos)];
    }
  }

  /**
   * `Convertor.__iter__` over the samples of the beatmap: the counter starts
   * at zero and the previous time at zero; the capture is checked once per
   * sample, before its frames are read.
   */
  method Synchronize<F>(samples: seq<(Pixel, int)>, delay: int, isOpen: nat -> bool, read: nat -> F)
    returns (out: seq<(F, Option<Pixel>)>, frames: nat, consumedAll: bool)
    ensures Sync(samples, delay, isOpen, read, 0, 0) == Outcome(out, frames, consumedAll)
  {
    var prevTime := 0;
    frames := 0;
    out := [];
    var i := 0;
    while i < |samples|
      invariant 0 <= i <= |samples|
      invariant Sync(samples, delay, isOpen, read, 0, 0) == Then(out, Sync(samples[i..], delay, isOpen, read, frames, prevTime))
    {
      var (position, time) := samples[i];
      if !isOpen(frames) {
        SyncStops(samples, delay, isOpen, read, i, out, frames, prevTime);
        return out, frames, false;
      }
      SyncAdvance(samples, delay, isOpen, read, i, out, frames, prevTime);
      var emitted;
      emitted, frames := CatchUp(read, position, time, prevTime, delay, frames);
      out := out + emitted;
      prevTime := time;
      i := i + 1;
    }
    SyncStops(samples, delay, isOpen, read, i, out, frames, prevTime);
    consumedAll := true;
  }

  // ---------------------------------------------------------------------------
  // Properties of the synchronizer
  // ---------------------------------------------------------------------------

  /** Every label is nothing or the position of one of the samples. */
  lemma {:induction false} SyncLabelsFromSamples<F>(samples: seq<(Pixel, int)>, delay: int, isOpen: nat -> bool, read: nat -> F, frames: nat, prevTime: int, i: nat)
    requires i < |Sync(samples, delay, isOpen, read, frames, prevTime).pairs|
    requires Sync(samples, delay, isOpen, read, frames, prevTime).pairs[i].1.Some?
    ensures exists j :: 0 <= j < |samples| && Sync(samples, delay, isOpen, read, frames, prevTime).pairs[i].1.value == samples[j].0
    decreases |samples|
  {
    var (pos, t) := samples[0];
    var next := Target(frames, delay, t);
    var r := Sync(samples, delay, isOpen, read, frames, prevTime);
    if i < next - frames {
      EmitAt(read, pos, t, prevTime, delay, frames, next, i);
      LabelRule(pos, t, prevTime, delay, frames + i + 1);
      assert r.pairs[i].1.value == samples[0].0;
    } else {
      SyncLabelsFromSamples(samples[1..], delay, isOpen, read, next, t, i - (next - frames));
      var j :| 0 <= j < |samples[1..]| && r.pairs[i].1.value == samples[1..][j].0;
      assert samples[1..][j] == samples[j + 1];
    }
  }

  /**
   * When every sample, including the first against time zero, comes less than
   * 1.3 frames after the one before it, every frame produced is labelled.
   */
  lemma {:induction false} DenseAllLabelled<F>(samples: seq<(Pixel, int)>, delay: int, isOpen: nat -> bool, read: nat -> F, frames: nat, prevTime: int)
    requires samples != [] ==> (samples[0].1 - prevTime) as real < DenseGap * FrameInterval
    requires forall j :: 1 <= j < |samples| ==> (samples[j].1 - samples[j - 1].1) as real < DenseGap * FrameInterval
    ensures var r := Sync(samples, delay, isOpen, read, frames, prevTime);
      forall i :: 0 <= i < |r.pairs| ==> r.pairs[i].1.Some?
    decreases |samples|
  {
    if samples != [] && isOpen(frames) {
      var (pos, t) := samples[0];
      var next := Target(frames, delay, t);
      forall j | 0 <= j < next - frames
        ensures Emit(read, pos, t, prevTime, delay, frames, next)[j].1.Some?
      {
        EmitAt(read, pos, t, prevTime, delay, frames, next, j);
        LabelRule(pos, t, prevTime, delay, frames + j + 1);
      }
      assert forall j :: 1 <= j < |samples[1..]| ==> samples[1..][j] == samples[j + 1] && samples[1..][j - 1] == samples[j];
      DenseAllLabelled(samples[1..], delay, isOpen, read, next, t);
      SyncStep(samples, delay, isOpen, read, frames, prevTime);
    }
  }

  /**
   * With a sample more than 1.3 frames after the previous one, a frame read
   * for it is labelled exactly when its nominal time, after the count, is
   * later than 0.3 frames before the sample.
   */
  lemma SparseLabels<F>(samples: seq<(Pixel, int)>, delay: int, isOpen: nat -> bool, read: nat -> F, frames: nat, prevTime: int, j: nat)
    requires samples != [] && isOpen(frames)
    requires (samples[0].1 - prevTime) as real >= DenseGap * FrameInterval
    requires j < Target(frames, delay, samples[0].1) - frames
    ensures var r := Sync(samples, delay, isOpen, read, frames, prevTime);
      && j < |r.pairs|
      && (r.pairs[j].1.Some? <==> NominalTime(delay, frames + j + 1) > samples[0].1 as real - Lead * FrameInterval)
      && (r.pairs[j].1.Some? ==> r.pairs[j].1.value == samples[0].0)
  {
    var (pos, t) := samples[0];
    var next := Target(frames, delay, t);
    EmitAt(read, pos, t, prevTime, delay, frames, next, j);
    LabelRule(pos, t, prevTime, delay, frames + j + 1);
  }

  /**
   * When all samples were walked, the clock has caught up with the last one:
   * its nominal time at the final count is not before the last sample.
   */
  lemma {:induction false} ClockCatchesUp<F>(samples: seq<(Pixel, int)>, delay: int, isOpen: nat -> bool, read: nat -> F, frames: nat, prevTime: int)
    requires samples != []
    requires Sync(samples, delay, isOpen, read, frames, prevTime).consumedAll
    ensures NominalTime(delay, Sync(samples, delay, isOpen, read, frames, prevTime).frames) >= samples[|samples| - 1].1 as real
    decreases |samples|
  {
    var t := samples[0].1;
    var next := Target(frames, delay, t);
    if |samples| > 1 {
      ClockCatchesUp(samples[1..], delay, isOpen, read, next, t);
    }
  }

  /** A capture that is closed from the start yields nothing. */
  lemma ClosedCaptureYieldsNothing<F>(samples: seq<(Pixel, int)>, delay: int, isOpen: nat -> bool, read: nat -> F)
    requires samples != [] && !isOpen(0)
    ensures Sync(samples, delay, isOpen, read, 0, 0) == Outcome([], 0, false)
  {
  }

  /**
   * One circle at (100, 100) at 500 ms, no delay, the capture always open:
   * thirty frames are read, and only the last is labelled.
   */
  lemma OneCircleExample<F>(read: nat -> F)
    ensures var r := Sync([(Pixel(100.0, 100.0), 500)], 0, (k: nat) => true, read, 0, 0);
      && |r.pairs| == 30 && r.frames == 30 && r.consumedAll
      && (forall i :: 0 <= i < 29 ==> r.pairs[i].1 == None)
      && r.pairs[29].1 == Some(Pixel(100.0, 100.0))
  {
    var pos := Pixel(100.0, 100.0);
    var samples := [(pos, 500)];
    var isOpen := (k: nat) => true;
    assert Ceil(500.0 / FrameInterval) == 30;
    assert Target(0, 0, 500) == 30;
    var e := Emit(read, pos, 500, 0, 0, 0, 30);
    SyncStep(samples, 0, isOpen, read, 0, 0);
    assert samples[1..] == [];
    assert Sync(samples, 0, isOpen, read, 0, 0) == Outcome(e + [], 30, true);
    assert e + [] == e;
    forall i | 0 <= i < 30
      ensures e[i].1 == if i < 29 then None else Some(pos)
    {
      EmitAt(read, pos, 500, 0, 0, 0, 30, i);
      LabelRule(pos, 500, 0, 0, i + 1);
      assert NominalTime(0, i + 1) == FrameInterval * ((i + 1) as real);
    }
  }

  // ---------------------------------------------------------------------------
  // The beatmap as the synchronizer's sample stream
  // ---------------------------------------------------------------------------

  /**
   * Iterating the converter: the beatmap's samples go through the
   * synchronizer. A hit-object line that produced no object raises TypeError
   * when the synchronizer asks for the sample after the last good one, unless
   * it had already stopped at a closed capture.
   */
  method Convert<F>(objects: seq<Option<HitObject>>, delay: int, isOpen: nat -> bool, read: nat -> F)
    returns (pairs: seq<(F, Option<Pixel>)>, failure: Option<Error>)
    ensures var k := FirstMissing(objects);
      var o := Sync(Flatten(SampleLists(objects[..k])), delay, isOpen, read, 0, 0);
      && pairs == o.pairs
      && (failure.Some? <==> k < |objects| && o.consumedAll)
      && (failure.Some? ==> failure.value == TypeError)
  {
    var samples, fileFailure := Iterate(objects);
    var frames, consumedAll;
    pairs, frames, consumedAll := Synchronize(samples, delay, isOpen, read);
    failure := if consumedAll then fileFailure else None;
  }

  // ---------------------------------------------------------------------------
  // The dataset export's bookkeeping
  // ---------------------------------------------------------------------------

  /** Where the export's interpolation starts before any labelled frame: the middle of the playfield. */
  const StartPosition: Pixel := Pixel(256.0, 192.0)

  /**
   * The positions filling a run of `length` unlabelled frames that ends at a
   * frame labelled `curr`: from just after `prev` to `curr` in equal steps,
   * each rounded.
   */
  function GapFill(prev: Pixel, curr: Pixel, length: nat): (r: seq<Pixel>)
    ensures |r| == length
    ensures length >= 1 ==> r[length - 1] == Round(curr)
  {
    if length == 0 then []
    else
      var ss := Linspace(1.0 / length as real, 1.0, length);
      assert ss[length - 1] == 1.0 by {
        if length == 1 {
          assert ss[0] == 1.0 / 1.0;
        }
      }
      LerpAtOne(prev, curr);
      seq(length, j requires 0 <= j < length => Round(Add(prev, Point(Scale(Sub(curr, Point(prev)), ss[j])))))
  }

  /** Going the whole way from `prev` towards `curr` lands on `curr`. */
  lemma LerpAtOne(prev: Pixel, curr: Pixel)
    ensures Add(prev, Point(Scale(Sub(curr, Point(prev)), 1.0))) == curr
  {
    var d := Sub(curr, Point(prev));
    assert Scale(d, 1.0) == d;
  }

  /** Where the run of unlabelled frames just before frame `e` begins. */
  function GapStart(labels: seq<Option<Pixel>>, e: nat): (g: nat)
    requires e <= |labels|
    ensures g <= e && (g == 0 || labels[g - 1].Some?)
  {
    if e > 0 && labels[e - 1].None? then GapStart(labels, e - 1) else e
  }

  /** The last label before frame `g`, or the start position when there is none. */
  function PrevLabel(labels: seq<Option<Pixel>>, g: nat): Pixel
    requires g <= |labels|
  {
    if g == 0 then StartPosition
    else if labels[g - 1].Some? then labels[g - 1].value
    else PrevLabel(labels, g - 1)
  }

  /** A run of unlabelled frames that starts after a label or at the beginning is the run `GapStart` finds. */
  lemma {:induction false} GapStartIs(labels: seq<Option<Pixel>>, g: nat, e: nat)
    requires g <= e <= |labels|
    requires g == 0 || labels[g - 1].Some?
    requires forall k :: g <= k < e ==> labels[k].None?
    ensures GapStart(labels, e) == g
    decreases e
  {
    if e > g {
      GapStartIs(labels, g, e - 1);
    }
  }

  /**
   * The position of frame `e`, when it is labelled, is its label, and the
   * run of unlabelled frames before it is filled in from the label before
   * that run.
   */
  predicate FilledAt(labels: seq<Option<Pixel>>, positions: seq<Pixel>, e: nat)
    requires e < |labels| && e < |positions|
  {
    labels[e].Some? ==>
      && positions[e] == labels[e].value
      && positions[GapStart(labels, e)..e] == GapFill(PrevLabel(labels, GapStart(labels, e)), labels[e].value, e - GapStart(labels, e))
  }

  /** Every frame before `upto` is filled in. */
  predicate Filled(labels: seq<Option<Pixel>>, positions: seq<Pixel>, upto: nat)
    requires upto <= |labels| && upto <= |positions|
  {
    forall e :: 0 <= e < upto ==> FilledAt(labels, positions, e)
  }

  /** Appending positions keeps what is already filled in. */
  lemma FilledGrows(labels: seq<Option<Pixel>>, positions: seq<Pixel>, more: seq<Pixel>, upto: nat)
    requires upto <= |labels| && upto <= |positions|
    requires Filled(labels, positions, upto)
    ensures Filled(labels, positions + more, upto)
  {
    forall e | 0 <= e < upto
      ensures FilledAt(labels, positions + more, e)
    {
      assert FilledAt(labels, positions, e);
      if labels[e].Some? {
        assert (positions + more)[GapStart(labels, e)..e] == positions[GapStart(labels, e)..e];
      }
    }
  }

  /** Closing a run of unlabelled frames at the labelled frame `i` fills the run and places the label. */
  lemma FilledStep(labels: seq<Option<Pixel>>, positions: seq<Pixel>, g: nat, i: nat)
    requires g <= i < |labels| && |positions| == g
    requires labels[i].Some?
    requires g == 0 || labels[g - 1].Some?
    requires forall k :: g <= k < i ==> labels[k].None?
    requires Filled(labels, positions, g)
    ensures Filled(labels, positions + GapFill(PrevLabel(labels, g), labels[i].value, i - g) + [labels[i].value], i + 1)
  {
    var fill := GapFill(PrevLabel(labels, g), labels[i].value, i - g);
    var grown := positions + fill + [labels[i].value];
    assert grown == positions + (fill + [labels[i].value]);
    FilledGrows(labels, positions, fill + [labels[i].value], g);
    forall e | 0 <= e < i + 1
      ensures FilledAt(labels, grown, e)
    {
      if e == i {
        GapStartIs(labels, g, i);
        assert |fill| == i - g;
        SliceMiddle(positions, fill, labels[i].value);
        assert grown[g..i] == fill && grown[i] == labels[i].value;
        FilledAtClosing(labels, grown, g, i);
      } else if e < g {
        assert FilledAt(labels, positions + (fill + [labels[i].value]), e);
      }
    }
  }

  /** A labelled frame whose run and label are in place is filled in. */
  lemma FilledAtClosing(labels: seq<Option<Pixel>>, positions: seq<Pixel>, g: nat, i: nat)
    requires g <= i < |labels| && i < |positions| && labels[i].Some?
    requires GapStart(labels, i) == g
    requires positions[i] == labels[i].value
    requires positions[g..i] == GapFill(PrevLabel(labels, g), labels[i].value, i - g)
    ensures FilledAt(labels, positions, i)
  {
  }

  /** The middle of `a + b + [x]` is `b`, and its last element is `x`. */
  lemma SliceMiddle<T>(a: seq<T>, b: seq<T>, x: T)
    ensures (a + b + [x])[|a|..|a| + |b|] == b && (a + b + [x])[|a| + |b|] == x
  {
    assert (a + b + [x])[|a|..|a| + |b|] == b;
  }

  /** The label before a labelled frame is that frame's label. */
  lemma PrevLabelAfter(labels: seq<Option<Pixel>>, i: nat)
    requires i < |labels| && labels[i].Some?
    ensures PrevLabel(labels, i + 1) == labels[i].value
  {
  }

  /**
   * `to_data` without the image and archive output: one click per frame, 0
   * exactly for an unlabelled frame, and one position per frame, unlabelled
   * runs filled in between the labels around them. A run of unlabelled
   * frames at the very end has no label after it and raises TypeError. The
   * display scaling of each position is taken to be the identity.
   */
  method ToData(labels: seq<Option<Pixel>>) returns (clicks: seq<int>, positions: Result<seq<Pixel>>)
    ensures |clicks| == |labels|
    ensures forall i :: 0 <= i < |labels| ==> clicks[i] == (if labels[i].None? then 0 else 1)
    ensures positions.Err? <==> labels != [] && labels[|labels| - 1].None?
    ensures positions.Err? ==> positions.error == TypeError
    ensures positions.Ok? ==> |positions.value| == |labels| && Filled(labels, positions.value, |labels|)
  {
    clicks := [];
    var out: seq<Pixel> := [];
    var prev := StartPosition;
    var length := 0;
    ghost var g := 0;  // where the current run of unlabelled frames begins
    var i := 0;
    while i < |labels|
      invariant g <= i <= |labels| && length == i - g
      invariant |clicks| == i && forall k :: 0 <= k < i ==> clicks[k] == (if labels[k].None? then 0 else 1)
      invariant |out| == g
      invariant forall k :: g <= k < i ==> labels[k].None?
      invariant g == 0 || labels[g - 1].Some?
      invariant prev == PrevLabel(labels, g)
      invariant Filled(labels, out, g)
    {
      var curr := labels[i];
      clicks := clicks + [if curr.None? then 0 else 1];
      // `prev` starts as a position and is only ever replaced by one, so the
      // source's `prev is not None` always holds.
      if curr.None? {
        length := length + 1;
      } else {
        FilledStep(labels, out, g, i);
        PrevLabelAfter(labels, i);
        out := out + GapFill(prev, curr.value, length) + [curr.value];
        length := 0;
        prev := curr.value;
        g := i + 1;
      }
      i := i + 1;
    }
    if length != 0 {
      positions := Err(TypeError);
    } else {
      positions := Ok(out);
    }
  }

  // ---------------------------------------------------------------------------
  // Configuration rows
  // ---------------------------------------------------------------------------

  /** A configuration value: a string, an int, or a tuple of ints. */
  datatype ParamValue = Text(text: string) | Int(n: int) | Ints(ns: seq<int>)

  /**
   * `key, *value = row.split('='); value = '='.join(value)`: the key is the
   * text before the first '=', the value everything after it, or empty when
   * the row has no '='.
   */
  function KeyValue(row: string): (r: (string, string))
    ensures '=' !in r.0
    ensures '=' in row ==> row == r.0 + "=" + r.1
    ensures '=' !in row ==> r == (row, "")
  {
    var parts := Split(row, '=');
    SplitFirst(row, '=');
    if |parts| >= 2 then
      assert '=' in row by {
        assert row[|parts[0]|] == '=';
      }
      (parts[0], Join(parts[1..], '='))
    else
      (parts[0], "")
  }

  /** The `match` on the key: `size` to a tuple of ints, `delay` to an int, anything else kept as text. */
  function RowValue(key: string, value: string): (r: Result<ParamValue>)
    ensures key == "size" ==> r == (var ns := ParseInts(Split(value, ',')); if ns.Ok? then Ok(Ints(ns.value)) else Err(ns.error))
    ensures key == "delay" ==> r == (var n := ParseInt(value); if n.Ok? then Ok(Int(n.value)) else Err(n.error))
    ensures key != "size" && key != "delay" ==> r == Ok(Text(value))
  {
    if key == "size" then
      var ns :- ParseInts(Split(value, ','));
      Ok(Ints(ns))
    else if key == "delay" then
      var n :- ParseInt(value);
      Ok(Int(n))
    else Ok(Text(value))
  }

  /** The value a row gives its key. */
  function RowParam(row: string): Result<ParamValue>
  {
    RowValue(KeyValue(row).0, KeyValue(row).1)
  }

  /**
   * The keyword arguments `params` holds after the rows `rows` are read into
   * it in order: every row sets its key to its value, a later row overriding
   * an earlier one; the first row whose value does not parse raises.
   */
  function ParamsFrom(params: map<string, ParamValue>, rows: seq<string>): Result<map<string, ParamValue>>
    decreases |rows|
  {
    if rows == [] then Ok(params)
    else
      var v :- RowParam(rows[0]);
      ParamsFrom(params[KeyValue(rows[0]).0 := v], rows[1..])
  }

  /** The loop of `from_file` over its rows, starting from no keyword arguments. */
  method ReadParams(rows: seq<string>) returns (r: Result<map<string, ParamValue>>)
    ensures r == ParamsFrom(map[], rows)
  {
    var params: map<string, ParamValue> := map[];
    var i := 0;
    while i < |rows|
      invariant 0 <= i <= |rows|
      invariant ParamsFrom(params, rows[i..]) == ParamsFrom(map[], rows)
    {
      var (key, value) := KeyValue(rows[i]);
      var v := RowValue(key, value);
      assert rows[i..][1..] == rows[i + 1..];
      if v.Err? {
        return Err(v.error);
      }
      params := params[key := v.value];
      i := i + 1;
    }
    return Ok(params);
  }

  /** Reading rows succeeds exactly when every row's value parses, and fails only with ValueError. */
  lemma {:induction false} ParamsOk(params: map<string, ParamValue>, rows: seq<string>)
    ensures ParamsFrom(params, rows).Ok? <==> forall i :: 0 <= i < |rows| ==> RowParam(rows[i]).Ok?
    ensures ParamsFrom(params, rows).Err? ==> ParamsFrom(params, rows).error == ValueError
    decreases |rows|
  {
    if rows != [] {
      var kv := KeyValue(rows[0]);
      var head := RowParam(rows[0]);
      ValueErrorOnly(kv.0, kv.1);
      if head.Ok? {
        var next := params[kv.0 := head.value];
        assert ParamsFrom(params, rows) == ParamsFrom(next, rows[1..]);
        ParamsOk(next, rows[1..]);
        assert forall i :: 1 <= i < |rows| ==> rows[1..][i - 1] == rows[i];
      } else {
        assert ParamsFrom(params, rows) == Err(head.error);
      }
    }
  }

  /** The keys read are the keys already there and the key of every row. */
  lemma {:induction false} ParamsKeys(params: map<string, ParamValue>, rows: seq<string>)
    requires ParamsFrom(params, rows).Ok?
    ensures forall k :: k in ParamsFrom(params, rows).value <==>
                          k in params || exists i :: 0 <= i < |rows| && KeyValue(rows[i]).0 == k
    decreases |rows|
  {
    if rows != [] {
      var key := KeyValue(rows[0]).0;
      ParamsKeys(params[key := RowParam(rows[0]).value], rows[1..]);
      forall k | exists i :: 0 <= i < |rows| && KeyValue(rows[i]).0 == k
        ensures k in ParamsFrom(params, rows).value
      {
        var i :| 0 <= i < |rows| && KeyValue(rows[i]).0 == k;
        if i > 0 {
          assert rows[1..][i - 1] == rows[i];
        }
      }
      forall k | k in ParamsFrom(params, rows).value && k !in params && k != key
        ensures exists i :: 0 <= i < |rows| && KeyValue(rows[i]).0 == k
      {
        var j :| 0 <= j < |rows[1..]| && KeyValue(rows[1..][j]).0 == k;
        assert rows[j + 1] == rows[1..][j];
      }
    }
  }

  /** A key no row names keeps the value it had. */
  lemma {:induction false} ParamsUntouched(params: map<string, ParamValue>, rows: seq<string>, k: string)
    requires ParamsFrom(params, rows).Ok?
    requires forall i :: 0 <= i < |rows| ==> KeyValue(rows[i]).0 != k
    ensures k in ParamsFrom(params, rows).value <==> k in params
    ensures k in params ==> ParamsFrom(params, rows).value[k] == params[k]
    decreases |rows|
  {
    if rows != [] {
      assert forall i :: 0 <= i < |rows[1..]| ==> rows[1..][i] == rows[i + 1];
      ParamsUntouched(params[KeyValue(rows[0]).0 := RowParam(rows[0]).value], rows[1..], k);
    }
  }

  /** The value of a key is the one its last row gives it. */
  lemma {:induction false} ParamsLastWins(params: map<string, ParamValue>, rows: seq<string>, i: nat)
    requires ParamsFrom(params, rows).Ok?
    requires i < |rows|
    requires forall j :: i < j < |rows| ==> KeyValue(rows[j]).0 != KeyValue(rows[i]).0
    ensures RowParam(rows[i]).Ok?
    ensures KeyValue(rows[i]).0 in ParamsFrom(params, rows).value
    ensures ParamsFrom(params, rows).value[KeyValue(rows[i]).0] == RowParam(rows[i]).value
    decreases |rows|
  {
    ParamsOk(params, rows);
    var next := params[KeyValue(rows[0]).0 := RowParam(rows[0]).value];
    if i == 0 {
      assert forall j :: 0 <= j < |rows[1..]| ==> rows[1..][j] == rows[j + 1];
      ParamsUntouched(next, rows[1..], KeyValue(rows[0]).0);
    } else {
      assert forall j :: i - 1 < j < |rows[1..]| ==> rows[1..][j] == rows[j + 1];
      ParamsLastWins(next, rows[1..], i - 1);
    }
  }

  /** Values under `size` are tuples of ints, under `delay` ints, and text under any other key. */
  predicate WellTyped(params: map<string, ParamValue>)
  {
    forall k :: k in params ==> (k == "size" ==> params[k].Ints?) && (k == "delay" ==> params[k].Int?)
                                && (k != "size" && k != "delay" ==> params[k].Text?)
  }

  /** Reading rows keeps every value of the type its key calls for. */
  lemma {:induction false} ParamsTyped(params: map<string, ParamValue>, rows: seq<string>)
    requires WellTyped(params) && ParamsFrom(params, rows).Ok?
    ensures WellTyped(ParamsFrom(params, rows).value)
    decreases |rows|
  {
    if rows != [] {
      ParamsTyped(params[KeyValue(rows[0]).0 := RowParam(rows[0]).value], rows[1..]);
    }
  }

  /** A configuration value that does not parse raises ValueError. */
  lemma ValueErrorOnly(key: string, value: string)
    ensures RowValue(key, value).Err? ==> RowValue(key, value).error == ValueError
  {
    if key == "size" {
      IntsErrorIsValueError(Split(value, ','));
    }
  }

  /** Reading several ints fails only with ValueError. */
  lemma IntsErrorIsValueError(texts: seq<string>)
    ensures ParseInts(texts).Err? ==> ParseInts(texts).error == ValueError
  {
    if ParseInts(texts).Err? {
      var i :| 0 <= i < |texts| && ParseInt(texts[i]) == Err(ParseInts(texts).error);
    }
  }

  /** The keyword arguments of the converter's constructor. */
  const ParamNames: set<string> := {"osu", "osr", "delay", "size"}

  /**
   * The converter's settings: the beatmap and replay-video paths, the delay,
   * and the frame size, each as it was handed over.
   */
  datatype Settings = Settings(osu: ParamValue, osr: ParamValue, delay: ParamValue, size: ParamValue)

  /**
   * `cls(**params)`: an unknown keyword, or a missing beatmap or video path,
   * raises TypeError; the delay defaults to 0 and the size to 1280 by 720.
   */
  function Construct(params: map<string, ParamValue>): (r: Result<Settings>)
    ensures r.Ok? <==> params.Keys <= ParamNames && "osu" in params && "osr" in params
    ensures r.Err? ==> r.error == TypeError
    ensures r.Ok? ==> && r.value.osu == params["osu"] && r.value.osr == params["osr"]
                      && r.value.delay == (if "delay" in params then params["delay"] else Int(0))
                      && r.value.size == (if "size" in params then params["size"] else Ints([1280, 720]))
  {
    if !(params.Keys <= ParamNames) || "osu" !in params || "osr" !in params then Err(TypeError)
    else
      Ok(Settings(params["osu"], params["osr"],
                  if "delay" in params then params["delay"] else Int(0),
                  if "size" in params then params["size"] else Ints([1280, 720])))
  }

  /**
   * `Convertor.from_file` on the text of the file: rows split at newlines, read
   * into keyword arguments, then the constructor. The paths stay text, the
   * delay is an int and the size a tuple of ints.
   */
  method FromFile(text: string) returns (r: Result<Settings>)
    ensures r.Ok? ==> r.value.osu.Text? && r.value.osr.Text? && r.value.delay.Int? && r.value.size.Ints?
    ensures ParamsFrom(map[], Split(text, '\n')).Err? ==> r == Err(ParamsFrom(map[], Split(text, '\n')).error)
    ensures ParamsFrom(map[], Split(text, '\n')).Ok? ==> r == Construct(ParamsFrom(map[], Split(text, '\n')).value)
  {
    var rows := Split(text, '\n');
    var params :- ReadParams(rows);
    ParamsTyped(map[], rows);
    r := Construct(params);
  }
}
