/**
 * Timing points: tempo markers (uninherited) and speed markers (inherited),
 * each with the values derived from it when it is read.
 */
module Timing {
  import opened Builtins

  /**
   * One timing point. `uninherited` is the seventh field read as a flag;
   * `step` is milliseconds per beat when positive and a negative percentage
   * when negative; `multiple`, `bpm` and `baseStep` are derived at construction.
   */
  datatype TimePoint = TimePoint(
    uninherited: bool,
    start: int,
    step: real,
    multiple: real,
    bpm: int,
    baseStep: real,
    speed: int)

  /**
   * The derivation in the timing point's constructor, from fields already read.
   * A zero step divides by zero; an inherited point without a previous point
   * has nothing to copy its tempo from.
   */
  function Derive(uninherited: bool, start: int, step: real, speed: int, prev: Option<TimePoint>): (r: Result<TimePoint>)
    ensures r.Ok? <==> step != 0.0 && (uninherited || prev.Some?)
    ensures step == 0.0 ==> r == Err(ZeroDivisionError)
    ensures step != 0.0 && !uninherited && prev.None? ==> r == Err(AttributeError)
    ensures r.Ok? ==> && r.value.start == start && r.value.step == step && r.value.speed == speed
                      && r.value.uninherited == uninherited
    ensures r.Ok? ==> r.value.multiple > 0.0 && (step > 0.0 ==> r.value.multiple == 1.0)
    ensures r.Ok? && step < 0.0 ==> r.value.multiple * -step == 100.0
    ensures r.Ok? && uninherited ==> r.value.baseStep == step && r.value.bpm == Trunc(60000.0 / step)
    ensures r.Ok? && !uninherited ==> r.value.baseStep == prev.value.baseStep && r.value.bpm == prev.value.bpm
  {
    if step == 0.0 then Err(ZeroDivisionError)
    else if !uninherited && prev.None? then Err(AttributeError)
    else
      var multiple := if step > 0.0 then 1.0 else 1.0 / -step * 100.0;
      var bpm := if uninherited then Trunc(1.0 / step * 1000.0 * 60.0) else prev.value.bpm;
      var baseStep := if uninherited then step else prev.value.baseStep;
      assert 1.0 / step * 1000.0 * 60.0 == 60000.0 / step;
      Ok(TimePoint(uninherited, start, step, multiple, bpm, baseStep, speed))
  }

  /**
   * The constructor reading a comma-separated record: start (field 1), step
   * (field 2), speed (field 3) and the uninherited flag (field 7).
   */
  function FromParams(params: seq<string>, prev: Option<TimePoint>): (r: Result<TimePoint>)
    ensures |params| < 7 ==> r == Err(IndexError)
    ensures r.Ok? ==> && ParseInt(params[6]).Ok? && ParseInt(params[0]).Ok?
                      && ParseReal(params[1]).Ok? && ParseInt(params[2]).Ok?
    ensures r.Ok? ==> r == Derive(ParseInt(params[6]).value != 0, ParseInt(params[0]).value,
                                  ParseReal(params[1]).value, ParseInt(params[2]).value, prev)
    ensures |params| >= 7 && ParseInt(params[6]).Ok? && ParseInt(params[0]).Ok? && ParseReal(params[1]).Ok? ==>
      var flag, step := ParseInt(params[6]).value, ParseReal(params[1]).value;
      && (step == 0.0 ==> r == Err(ZeroDivisionError))
      && (step != 0.0 && flag == 0 && prev.None? ==> r == Err(AttributeError))
      && (step != 0.0 && (flag != 0 || prev.Some?) ==>
            (r.Ok? <==> ParseInt(params[2]).Ok?))
    ensures |params| >= 7 && !(ParseInt(params[6]).Ok? && ParseInt(params[0]).Ok? && ParseReal(params[1]).Ok?) ==>
      r == Err(ValueError)
  {
    if |params| < 7 then Err(IndexError)
    else
      var flag :- ParseInt(params[6]);
      var start :- ParseInt(params[0]);
      var step :- ParseReal(params[1]);
      if step == 0.0 then Err(ZeroDivisionError)
      else if flag == 0 && prev.None? then Err(AttributeError)
      else
        var speed :- ParseInt(params[2]);
        Derive(flag != 0, start, step, speed, prev)
  }

  /** Iterating a timing point yields start, step, speed and the flag, in that order. */
  function Fields(p: TimePoint): (r: (int, real, int, bool))
    ensures r.0 == p.start && r.1 == p.step && r.2 == p.speed && r.3 == p.uninherited
  {
    (p.start, p.step, p.speed, p.uninherited)
  }

  /** An uninherited point never consults the previous point. */
  lemma UninheritedIgnoresPrev(start: int, step: real, speed: int, p: Option<TimePoint>, q: Option<TimePoint>)
    ensures Derive(true, start, step, speed, p) == Derive(true, start, step, speed, q)
  {
  }

  /** An inherited point takes its tempo and base step from the point it is given. */
  lemma InheritedCopiesPrev(start: int, step: real, speed: int, prev: TimePoint)
    requires step < 0.0
    ensures var r := Derive(false, start, step, speed, Some(prev));
      r.Ok? && r.value.bpm == prev.bpm && r.value.baseStep == prev.baseStep
      && r.value.multiple == 100.0 / -step
  {
  }

  /**
   * Rebuilding an uninherited point from the fields its iteration yields gives
   * the same point back.
   */
  lemma RederiveFromFields(start: int, step: real, speed: int, prev: Option<TimePoint>)
    requires Derive(true, start, step, speed, prev).Ok?
    ensures var p := Derive(true, start, step, speed, prev).value;
      var (s, st, sp, u) := Fields(p);
      Derive(u, s, st, sp, None) == Ok(p)
  {
  }

  /** A record read after two previous points gives the same point when their tempos agree. */
  lemma FromParamsDependsOnTempoOnly(params: seq<string>, p: TimePoint, q: TimePoint)
    requires p.bpm == q.bpm && p.baseStep == q.baseStep
    ensures FromParams(params, Some(p)) == FromParams(params, Some(q))
  {
    if |params| >= 7 {
      var flag, start, step, speed := ParseInt(params[6]), ParseInt(params[0]), ParseReal(params[1]), ParseInt(params[2]);
      if flag.Ok? && start.Ok? && step.Ok? && step.value != 0.0 && speed.Ok? {
        assert Derive(flag.value != 0, start.value, step.value, speed.value, Some(p))
            == Derive(flag.value != 0, start.value, step.value, speed.value, Some(q));
      }
    }
  }
}
