# osu! beatmap to frame-label converter, modelled in Dafny

This project models the core of a converter that turns an osu! beatmap and a
recorded replay video into a labelled dataset. The converter reads a beatmap's
`[TimingPoints]`, `[Difficulty]` and `[HitObjects]` sections. It builds the
timing-point chain, with two synthesised points in front. It turns every hit
object (circle, slider, spinner) into a run of positions and the millisecond
times at which the cursor should be at them. It then walks that sample stream
against a 60 frames-per-second clock, labelling each video frame with the
current position or with nothing.

The modules follow the source files:

| module | file | source |
|---|---|---|
| `Builtins` | builtins.dfy | the Python and numpy behaviour the code relies on: exceptions as `Result`, `round`, `math.ceil`, `int(float)`, `numpy.linspace`, `str.split`/`join`/`strip`, `int(str)`/`float(str)` |
| `Pixels` | pixel.dfy | `src/pixel.py` |
| `Timing` | time.dfy | `src/time.py` |
| `Utils` | utils.dfy | `src/utils.py` |
| `Objects` | object.dfy | `src/object.py` |
| `Beatmap` | file.dfy | `src/file.py` |
| `Convertor` | convertor.dfy | `src/convertor.py` |

Modelling choices:

- Python floats are exact `real`s. The frame interval `1 / 60 * 1000` is the exact value 50/3.
- A call that raises returns `Err(e)`, where `e` names the Python exception.
- The numeric routines the model does not define are fields of a `Numerics` value passed in as a parameter. These are `sqrt`, `atan2`, `cos`, `sin`, the evenly spaced Bezier sampler and the Bezier length estimate.
- A curve wrapper is a `Curve` value:
  - a `Line` for `l_curve`;
  - an `Arc` for `p_curve`;
  - a `Stream` of precomputed points for `b_curve`, whose wrapper ignores its argument and hands out the next point.
- The video capture is two functions of the number of frames read so far: whether it reports itself open, and the frame the next read returns.
- Loops of the source are methods with loop invariants. Each is proved equal to a recursive specification function, and the properties are proved about that function. Examples: `Synchronize` against `Sync`, `CalculatePoints` against `SampleSegments`/`Joined`, `ReduceMap` against `ReduceMapAsWritten`, and `ExtractSections` against `Run`.

## Model

| member | source | states |
|---|---|---|
| Pixels.Add | src/pixel.py:22-25 | an int operand shifts both coordinates by it; a Pixel operand adds componentwise |
| Pixels.Sub | src/pixel.py:27-30 | an int operand is subtracted from both coordinates; a Pixel operand subtracts componentwise |
| Pixels.Scale | src/pixel.py:13-14 | both coordinates are multiplied by the factor; dividing back by a non-zero factor restores the point, and a zero factor gives the origin |
| Pixels.ScaleLeft | src/pixel.py:16-17 | `k * p` is the same point as `p * k` |
| Pixels.Equals | src/pixel.py:10-11 | two pixels are equal exactly when both coordinates agree |
| Pixels.EqualsIsEquivalence | src/pixel.py:10-11 | equality is reflexive, symmetric and transitive |
| Pixels.Coordinates | src/pixel.py:38-40 | iteration yields exactly two values, x then y, which rebuild the point |
| Pixels.Round | src/pixel.py:42-43 | each coordinate becomes a whole number within 0.5 of it, and at a tie the even one, which fixes the value |
| Pixels.RoundIntegral | src/pixel.py:42-43 | rounding leaves a point with whole-number coordinates unchanged |
| Pixels.RoundIdempotent | src/pixel.py:42-43 | rounding twice is rounding once |
| Pixels.RoundNearest | src/pixel.py:42-43 | a point within less than 0.5 of whole-number coordinates rounds to them |
| Pixels.AddSubInverse | src/pixel.py:22-30 | subtracting what was added gives the point back, for int and Pixel operands, in both orders |
| Pixels.AddCommutes | src/pixel.py:22-25 | adding two pixels does not depend on their order |
| Pixels.ScaleDistributes | src/pixel.py:13-25 | scaling distributes over addition |
| Builtins.RoundHalfEven | src/pixel.py:43 | `round` is within 0.5 of its argument, and a tie goes to the even integer |
| Builtins.RoundOfInteger | src/pixel.py:43 | rounding an integer gives it back |
| Builtins.RoundNearestInteger | src/pixel.py:43 | a value within less than 0.5 of an integer rounds to it |
| Builtins.RoundMonotone | src/object.py:85 | rounding never reverses the order of two values |
| Builtins.Ceil | src/object.py:142 | `math.ceil(x)` is the least integer not below `x` |
| Builtins.Trunc | src/time.py:18 | `int(x)` drops the fraction toward zero, for either sign |
| Builtins.Linspace | src/utils.py:205 | `m` values, the first `a` and the last `b` when there are at least two |
| Builtins.LinspaceMonotone | src/object.py:144 | the values of an increasing range never decrease |
| Builtins.LinspaceStep | src/utils.py:205 | consecutive values are exactly `(b - a) / (m - 1)` apart |
| Builtins.MapResult | src/object.py:58 | mapping a raising function succeeds exactly when every item succeeds, the results line up with the items, and a failure is the failure of some item |
| Builtins.MapResultSnoc | src/file.py:60 | mapping one more item fails with the earlier failure, else with that item's, else appends its result |
| Builtins.MapResultPrefixFails | src/file.py:60 | once a prefix fails, mapping the whole gives the prefix's failure |
| Builtins.MapResultExtends | src/file.py:60 | mapping one more line extends the objects so far by its object, or fails with its error |
| Builtins.Split | src/object.py:34 | at least one piece, and no piece holds the separator |
| Builtins.JoinSplit | src/convertor.py:88-89 | joining the pieces with the separator gives the text back |
| Builtins.SplitFirst | src/convertor.py:88-89 | the first piece is the text before the first separator, and the rest joined is the text after it |
| Builtins.Strip | src/file.py:53-54 | the result is a slice of the text with only whitespace cut off either end, and neither of its ends is whitespace |
| Builtins.ParseInt | src/object.py:35 | `int(s)` succeeds exactly when the stripped text is an optional sign and one or more digits, its value being the digits read in base ten with that sign; otherwise ValueError |
| Builtins.ParseReal | src/time.py:16 | `float(s)` succeeds only when the unsigned text holds a digit |
| Builtins.ParseDecimalOfDigits | src/time.py:16 | digit text without a point reads as the integer it spells |
| Builtins.ParseRealOfInteger | src/time.py:16 | text that `int` reads, `float` reads as the same number |
| Timing.Derive | src/time.py:14-20 | a zero step raises ZeroDivisionError; an inherited point without `prev` raises AttributeError; `multiple` is 1 for a positive step and `100 / -step` for a negative one; an uninherited point has `bpm == int(60000 / step)` and `base_step == step`; an inherited point copies both from `prev` |
| Timing.FromParams | src/time.py:13-20 | fewer than seven fields raise IndexError; a field 7, 1 or 2 that does not parse raises ValueError; then a zero step raises ZeroDivisionError, an inherited point without `prev` AttributeError, and otherwise it succeeds exactly when field 3 parses, with the point derived from the four fields |
| Timing.FromParamsDependsOnTempoOnly | src/time.py:17-19 | a point read after either of two points with the same tempo and base step is the same point; `prev` contributes only those two fields |
| Timing.Fields | src/time.py:25-26 | iteration yields start, step, speed and the flag, in that order |
| Timing.UninheritedIgnoresPrev | src/time.py:18-19 | an uninherited point is the same whatever `prev` is |
| Timing.InheritedCopiesPrev | src/time.py:17-19 | an inherited point with a negative step takes `bpm` and `base_step` from `prev` and has `multiple == 100 / -step` |
| Timing.RederiveFromFields | src/file.py:69-82 | rebuilding an uninherited point from the fields it yields, without `prev`, gives the same point |
| Utils.NormalizeAngle | src/utils.py:122 | the angle is kept or moved up one turn, and an angle in (-pi, pi], the range of atan2, lands in [0, 2*pi) |
| Utils.Unwrapped | src/utils.py:16-25 | at most one end angle moves, by one turn; for angles in [0, 2*pi) the middle angle lies between the corrected ends and the two spans together cover at most one turn |
| Utils.Fractions | src/utils.py:27-29 | the two fractions are non-negative, add up to one, and the first is its part's share of the whole |
| Utils.NewAngleSequence | src/utils.py:12-29 | fails with ZeroDivisionError exactly when all three angles coincide; otherwise the length is the total sweep and the fractions are the two spans' shares, adding up to one; for angles in [0, 2*pi) the middle lies between the ends |
| Utils.ZeroSweep | src/utils.py:27-28 | the sweep is zero exactly when the three angles coincide |
| Utils.GetByRange | src/utils.py:37-38 | interpolation gives `start` at 0 and `end` at 1, moves in proportion to `t`, and stays between the ends for `t` in [0, 1] |
| Utils.GetT | src/utils.py:31-35 | on each span the angle moves in proportion to `t`: `(r - head) * share0 == t * (check - head)` up to the split, `(r - check) * share1 == (t - share0) * (tail - check)` after it; an empty share yields NaN, reported as ValueError |
| Utils.GetTEnds | src/utils.py:31-38 | `get_t(1)` is the end angle; with a non-empty first span, `get_t(0)` is the start angle and `get_t` at the split is the middle angle |
| Utils.SequenceEnds | src/utils.py:31-38 | the same end values for any angle sequence whose fractions add up to one |
| Utils.GetTWithinArc | src/utils.py:16-38 | for angles in [0, 2*pi), every `t` in [0, 1] maps to an angle between the corrected ends |
| Utils.GetTBetween | src/utils.py:31-38 | a sequence whose middle lies between its ends maps every `t` in [0, 1] between the ends |
| Utils.Until | src/utils.py:40-45 | the result is `action` applied to the longest prefix satisfying `cond`, in order, and the item after it fails `cond` |
| Utils.Window | src/utils.py:47-55 | for `n >= 1`, one tuple per slice `s[i..i+n]`, in order, or none when the input is shorter than `n`; for `n == 0`, an empty tuple and then one single-item tuple per item |
| Utils.Unique | src/utils.py:57-64 | the loop computes `Deduplicated`, which is the input read at its run starts, in order: a subsequence of the input |
| Utils.DeduplicatedEnds | src/utils.py:57-64 | the first and last items are kept |
| Utils.DeduplicatedHasNoAdjacentDuplicates | src/utils.py:57-64 | no two neighbours of the output are equal |
| Utils.DeduplicatedFixpoint | src/utils.py:57-64 | input without neighbouring duplicates comes out unchanged |
| Utils.DeduplicatedSameItems | src/utils.py:57-64 | an item occurs in the output exactly when it occurs in the input |
| Utils.RunStartsAreRunBeginnings | src/utils.py:57-64 | the run starts increase, and a position is one exactly when it is the first or differs from its predecessor |
| Utils.DeduplicatedPicksRunStarts | src/utils.py:57-64 | the deduplicated items are exactly the items at the run starts, in order |
| Utils.SplitSame | src/utils.py:66-77 | an empty input raises UnboundLocalError; otherwise every piece is non-empty without neighbouring duplicates, each later piece starts with the previous piece's last item, and the pieces join back to the input, less a final item that repeats its predecessor or is alone |
| Utils.SplitScan | src/utils.py:66-72 | the start of the current run never lies past the items scanned |
| Utils.ChainedAppend | src/utils.py:70-72 | a piece continuing the last one keeps the pieces chained |
| Utils.LinePoint | src/utils.py:139-147 | the straight path is at the first point at 0, at the second at 1, and at the midpoint at 0.5 |
| Utils.LinePointAffine | src/utils.py:139-147 | the straight path is affine: moving `t` by `d` moves the point by `d` times `to - from` |
| Utils.Solve | src/utils.py:116-117 | the point from Cramer's rule lies on both lines |
| Utils.Circumcentre | src/utils.py:108-117 | fails with ZeroDivisionError exactly when the three points are collinear; otherwise the centre is equally far from all three |
| Utils.EquidistantFromBisectors | src/utils.py:114-117 | a point on the bisector line of `p_curve` is equally far from both points |
| Utils.ArcCurve | src/utils.py:108-137 | anything but three points raises ValueError; collinear points raise the circumcentre's ZeroDivisionError; otherwise the arc around the circumcentre, its radius the distance to the first point, its angle sequence built from the three normalised `atan2` angles, or that sequence's error |
| Utils.BezierCurve | src/utils.py:98-106 | `floor(time * 60 / 1000) + 1` points drawn from the sampler, refused when that count is below one |
| Utils.Sample | src/utils.py:101-103 | a line wrapper's `j`-th sample is its point at `linspace(0, 1, m)[j]`; an arc's is the centre plus radius times (cos, sin) of `get_t` there, failing exactly when `get_t` does; a stream hands out its `j`-th point and raises StopIteration past its end |
| Utils.SampleRun | src/utils.py:205 | the first `k` samples succeed exactly when each of them does, the `j`-th at position `j`; a failure is that of the first failing sample |
| Utils.LineSampleEnds | src/utils.py:139-147 | a line sampled at two or more points starts at its first point and ends at its second |
| Utils.LineSamplesEvenlySpaced | src/utils.py:139-147 | consecutive samples of a line are `(to - from) / (m - 1)` apart |
| Utils.LineSamples | src/utils.py:139-147 | sampling a line at `m` parameters succeeds, and sample `j` is the line at the `j`-th of `m` evenly spaced parameters from 0 to 1 |
| Utils.StepApart | src/utils.py:139-147 | two parameters `1/k` apart give points `(to - from) / k` apart on the line |
| Utils.SplitTime | src/utils.py:149-154 | one share per length, each in proportion to its length, adding up to the total; lengths summing to zero give no shares |
| Utils.Shares | src/utils.py:149-154 | one share per length, and each share times the total length is the total duration times that length |
| Utils.SharesSum | src/utils.py:152-153 | shares proportional to lengths add up to the total duration |
| Utils.SumProportional | src/utils.py:152-153 | items proportional to others with one factor have proportional sums |
| Utils.JoinedAppend | src/utils.py:203-205 | one more segment drops the last point so far and appends the segment |
| Utils.JoinedDropsBoundaries | src/utils.py:201-207 | the joined points are every segment but the last without its last point, then the last segment whole |
| Utils.JoinedLength | src/utils.py:201-207 | with non-empty segments, each segment after the first adds one point fewer than it has |
| Utils.SampleSegments | src/utils.py:203-205 | succeeds exactly when every count `floor(steps[k])` is non-negative and that curve's run of samples succeeds; the `k`-th segment is that run |
| Utils.SampleSegmentsFailurePersists | src/utils.py:203-205 | once a pair fails, every longer run of pairs fails with the same error |
| Utils.SegmentFails | src/utils.py:203-205 | a pair with a negative count, or whose samples fail, makes every longer run fail with ValueError or that error |
| Utils.CalculatePoints | src/utils.py:201-207 | the loop computes `CalculatedPoints`: it succeeds exactly when every segment samples, fails with the first segment's error otherwise, and its points are the segments joined with each shared boundary point dropped |
| Objects.Field | src/object.py:34-35 | indexing past the end raises IndexError |
| Objects.BitExamples | src/object.py:36-41 | the type bits tested by `ty & 1`, `ty & 2` and `ty & 8` for types 1, 2, 5, 6, 12 and -1 |
| Objects.NewCircle | src/object.py:43-47 | fewer than three fields raise IndexError; otherwise a circle exactly when fields 1 to 3 parse as ints, with one point `(x, y)` and one time, field 3, and ValueError otherwise |
| Objects.ParsePoint | src/object.py:58 | a control point is `PointOf` its colon-separated parts |
| Objects.PointOf | src/object.py:58 | succeeds exactly when there are two parts and both parse, with that point; a part that does not parse raises ValueError, and another count of ints TypeError |
| Objects.ParseInts | src/convertor.py:93 | succeeds exactly when every text parses, the ints lining up with the texts; otherwise ValueError |
| Objects.ParsePoints | src/object.py:58 | succeeds exactly when every control point parses, in order; a failure is that of some piece |
| Objects.SlideDuration | src/object.py:59 | `time * (100 * multiplier * multiple) == length * base_step`; a zero divisor raises ZeroDivisionError |
| Objects.EvenTimes | src/object.py:94 | `n + 1` times from `current` to `current + span`, consecutive ones `span / n` apart; no positions divides by zero |
| Objects.EvenTimesIncreasing | src/object.py:94 | over a positive span the times strictly increase |
| Objects.LinePath | src/object.py:116-127 | fewer than two points raise ZeroDivisionError; a success is framed: whole-number positions and evenly spaced times from start to start plus the duration |
| Objects.ArcPath | src/object.py:107-114 | anything but three points raises ValueError; a success is framed |
| Objects.PerfectPath | src/object.py:99-114 | fewer than three points raise IndexError; a success is framed |
| Objects.BezierPath | src/object.py:87-97 | no points raise UnboundLocalError; a success is framed |
| Objects.Finish | src/object.py:92-97 | no positions raise ZeroDivisionError; otherwise the `i`-th position is the `i`-th point rounded and the times are evenly spaced from start to start plus the duration, one more than positions |
| Objects.InitLine | src/object.py:116-127 | the method computes `LinePath` |
| Objects.InitPerfect | src/object.py:99-114 | fewer than three points raise IndexError; first and third equal draws `LinePath` of all points, else first and second equal `LinePath` without the first, else second and third equal `LinePath` without the last, else `ArcPath`, which refuses more than three points |
| Objects.InitBezier | src/object.py:87-97 | the method computes `BezierPath`; no points leave `split_same`'s variable unbound |
| Objects.BezierCurves | src/object.py:91 | one wrapper per piece and duration, in order |
| Objects.BezierStreamSuffices | src/object.py:90-91 | a Bezier piece asked for `floor(duration / frame)` samples never runs out of points |
| Objects.Reverse | src/object.py:76 | the `i`-th item of the reversal is the `i`-th from the end |
| Objects.Shift | src/object.py:80 | every time moves by the same amount |
| Objects.OffsetIsProduct | src/object.py:80 | after `k` passes the template has moved by `k` durations |
| Objects.ShiftTwice | src/object.py:80 | moving twice is moving once by the sum |
| Objects.ExtendRepeats | src/object.py:71-83 | the loop's points are `PingPong` and its times `RepeatTimes` for the number of extra passes |
| Objects.PingPongLength | src/object.py:74-78 | each extra pass adds one point fewer than the path has |
| Objects.PingPongEnd | src/object.py:74-78 | after an odd number of passes the path ends at its start, after an even number at its end |
| Objects.RepeatTimesLength | src/object.py:74-81 | each extra pass adds one time fewer than the template has |
| Objects.RepeatsKeepTimesForPoints | src/object.py:71-83 | after any number of passes there is one more time per pass, plus one, than positions |
| Objects.RepeatTimesIncreasing | src/object.py:80-81 | increasing times over a positive duration stay increasing across the passes |
| Objects.RepeatTimesLast | src/object.py:80-81 | the last time after `k` passes is the template's last time plus `k` durations |
| Objects.RoundedTimesOrdered | src/object.py:85 | rounding increasing times keeps them in order |
| Objects.CurrentTimePoint | src/object.py:55 | the method computes `CurrentPoint`: the last point of the longest prefix starting no later than the object; an empty prefix raises IndexError |
| Objects.InForce | src/object.py:55 | the leading points counted have all started by the time, and the next one has not |
| Objects.ParseSlide | src/object.py:55-61 | the method computes `SlideHeadOf` |
| Objects.SlideHeadOf | src/object.py:55-61 | no timing points raise IndexError; a success read start, head position, curve letter and length from their fields, the later control points from field 6, and its duration is `SlideDuration` at the time point in force at the start |
| Objects.ShapeSlide | src/object.py:63-69 | B gives `BezierPath`, P `PerfectPath`, L `LinePath`, and any other letter AttributeError; a success is framed from the slider's start to its end |
| Objects.ShapeOf | src/object.py:63-69 | a curve letter other than B, P or L raises AttributeError; a success is framed from the slider's start to its end |
| Objects.RepeatSlide | src/object.py:71-85 | positions are the path walked back and forth, and each time is the rounded repeated time; the pair is `Repeated` |
| Objects.NewSlide | src/object.py:53-85 | the method computes `SlideOf`; a slider has whole-number positions, more times than positions, and the length of field 8 |
| Objects.SlideOf | src/object.py:53-85 | no timing points raise IndexError; a success is a slider whose head parsed, whose repeat count parses and whose length is the head's |
| Objects.RoundedAll | src/object.py:85 | each time rounded half to even, in order |
| Objects.PingPongIntegral | src/object.py:76-78 | repeating whole-number positions keeps them whole numbers |
| Objects.SpinPoint | src/object.py:143 | a rounded point of the radius-44 circle round (256, 192) |
| Objects.SpinPoints | src/object.py:143 | `count` points walking the circle back from the full sweep to angle zero |
| Objects.SpinTimes | src/object.py:144 | `count` times, the `k`-th being `ceil(linspace(start, end, count)[k])`: from start to end, never decreasing |
| Objects.SpinTimesOrdered | src/object.py:144 | ceil of increasing evenly spaced times stays in order |
| Objects.SpinOf | src/object.py:137-144 | `ceil((end - start) / frame)` points and times, a negative count raising ValueError; the points are `SpinPoints` over the sweep `rate * time / 1000 * 2 * pi` and the times `SpinTimes`, so the first time is the start, the last the end and the last point at angle zero |
| Objects.NewSpin | src/object.py:134-139 | fewer than three fields raise IndexError; field 3 not an int raises ValueError; then fewer than six fields raise IndexError and field 6 not an int ValueError; otherwise the spinner from field 3 to field 6 |
| Objects.CeilOfInteger | src/object.py:144 | `ceil` of an integer is that integer |
| Objects.CeilMonotone | src/object.py:144 | `ceil` never reverses the order of two values |
| Objects.FromSource | src/object.py:33-41 | the method computes `HitObjectOf`; bit 0 of field 4 gives a circle, else bit 1 a slider, else bit 3 a spinner, else nothing |
| Objects.HitObjectOf | src/object.py:33-41 | a success is of the kind the type bits of field 4 choose |
| Objects.Samples | src/object.py:28-30 | iteration pairs the `i`-th position with the `i`-th time, as far as both go |
| Beatmap.Anchored | src/file.py:10-15 | building items with a fixed first result succeeds exactly when every item builds, and lines the results up with the items |
| Beatmap.ReduceMapAsWritten | src/file.py:9-15 | the first item is built with `None`, every later one with the first result |
| Beatmap.RunningChain | src/file.py:9-15 | each item is built with the result just before it |
| Beatmap.ReduceMap | src/file.py:9-15 | the loop computes `ReduceMapAsWritten` |
| Beatmap.Chain | src/file.py:9-15 | a loop carrying the latest result computes `RunningChain` |
| Beatmap.ReadTimePoint | src/file.py:57 | a line is split at commas and read as a timing point; without `prev` a success is uninherited and carries its own tempo |
| Beatmap.ReadFacts | src/file.py:57 | a line read successfully carries its own tempo or the tempo of the point it was given |
| Beatmap.ReadDependsOnTempoOnly | src/file.py:57 | a line read after two points with the same tempo and base step gives the same point |
| Beatmap.RunningChainTempo | src/file.py:57 | the running chain is tempo-consistent: each speed point takes the tempo of the point before it |
| Beatmap.RunningKeeps | src/file.py:9-15 | a fact about each result and its `prev` holds along the running chain |
| Beatmap.AsWrittenKeeps | src/file.py:9-15 | a fact about each result and its `prev` holds along the chain as written, with the first result as `prev` |
| Beatmap.AsWrittenAnchored | src/file.py:57 | the chain as written gives every later speed point the tempo of the first point |
| Beatmap.GoverningTempo | src/time.py:18-19 | in a tempo-consistent chain, a speed point has the tempo of the nearest tempo point before it |
| Beatmap.ChainsAgreeWithOneTempo | src/file.py:9-15 | with one tempo point followed only by speed points, the chain as written and the running chain agree |
| Beatmap.AsWrittenKeepsFirstTempo | src/file.py:9-15 | on a map that changes tempo, the speed point built as written keeps the first beat length, and the chain is not tempo-consistent |
| Beatmap.RunningKeepsLatestTempo | src/file.py:9-15 | on the same map the running chain gives the speed point the latest beat length |
| Beatmap.Bootstrap | src/file.py:68-83 | a tempo point at time 0 with the first point's step and speed, then a speed point at the first point's start with step -100, which inherits from it and so has multiple 1 and its base step |
| Beatmap.AssembleChain | src/file.py:58 | the first parsed point is replaced by the two bootstrap points and the rest follow unchanged; no parsed point raises IndexError |
| Beatmap.AssembleKeepsTempo | src/file.py:58 | the assembled chain stays tempo-consistent |
| Beatmap.AssembleKeepsAnchor | src/file.py:58 | the assembled chain keeps its speed points on the first point's tempo |
| Beatmap.LastIndex | src/file.py:40-46 | the position of the last occurrence, or none when there is none |
| Beatmap.Header | src/file.py:40-46 | a line opening with `[` that has a `]` later is a header, its name running to the last `]` |
| Beatmap.Step | src/file.py:44-54 | a header becomes the current section, collected exactly when it is needed; any other line leaves the current section and collection as they were; only needed sections ever have entries |
| Beatmap.Run | src/file.py:43-54 | after any lines, only needed sections have entries, and the section being collected has one |
| Beatmap.NonBlank | src/file.py:53-54 | kept lines are never empty |
| Beatmap.StepCollects | src/file.py:53-54 | a line that is not a header, read while collecting, appends its stripped form if it is non-blank |
| Beatmap.CollectBody | src/file.py:53-54 | lines that are not headers add their stripped non-blank forms, in order, to the current section |
| Beatmap.NeededSection | src/file.py:44-54 | a needed header followed by its body yields exactly the body's stripped non-blank lines, without the header, and no other section changes |
| Beatmap.SkippedSection | src/file.py:44-51 | a header of any other section stops collection, and its body adds nothing |
| Beatmap.RunAppend | src/file.py:43 | reading lines in two parts is reading them in one go |
| Beatmap.ExtractSections | src/file.py:38-54 | the loop computes `Run` from the initial state; only needed sections appear |
| Beatmap.KeepDifficulty | src/file.py:56 | a line is kept exactly when it is non-empty and its key is SliderMultiplier or SliderTickRate |
| Beatmap.KeepDifficultyAppend | src/file.py:56 | filtering a concatenation filters each part, so kept lines keep their order |
| Beatmap.KeepDifficultyOne | src/file.py:56 | a single line is kept exactly when it is non-empty and its key is a difficulty key |
| Beatmap.KeepDifficultySnoc | src/file.py:56 | filtering one more line appends it exactly when it is kept |
| Beatmap.DifficultyDict | src/file.py:59 | succeeds exactly when every line splits at `:` into two parts; otherwise ValueError |
| Beatmap.DifficultyDictHasKeys | src/file.py:59 | every line's key is in the dictionary |
| Beatmap.DifficultyDictOnlyKeys | src/file.py:59 | every key of the dictionary is some line's key |
| Beatmap.DifficultyDictLastWins | src/file.py:59 | a key's value comes from its last line |
| Beatmap.BuildObjects | src/file.py:60 | the loop computes `HitObjectOf` mapped over the lines, the first failure winning: one object per line, in order, of the kind its type bits choose |
| Beatmap.BuiltKinds | src/file.py:60 | when every line builds, there is one object per line, each of the kind its line's type bits choose |
| Beatmap.Load | src/file.py:38-60 | a missing Difficulty or TimingPoints section raises KeyError, a failing timing row its error, no timing rows IndexError, a failing chain, difficulty dictionary or difficulty record its error, and a missing HitObjects section KeyError, in the order the source reaches them; when every stage succeeds the result is exactly the file whose objects `HitObjectOf` maps over the hit-object lines, or the first object's failure; a success has the chain as written with its bootstrap points, the filtered difficulty, and the objects `HitObjectOf` builds from the hit-object lines; its speed points carry the first point's tempo and its first point starts at 0 |
| Beatmap.FirstMissing | src/file.py:34-36 | every object before the index exists, and the one at it does not |
| Beatmap.SampleLists | src/file.py:34-36 | each object's samples, in order |
| Beatmap.Iterate | src/file.py:34-36 | the samples of the objects before the first missing one, in file order; a missing object stops with TypeError |
| Beatmap.SampleListsSnoc | src/file.py:34-36 | one more object adds its samples after those of the objects before it |
| Beatmap.FlattenLength | src/file.py:34-36 | no sample is lost or added |
| Convertor.NominalTimeMonotone | src/convertor.py:19-28 | the nominal frame time `-delay + k * n` only moves forward |
| Convertor.LabelRule | src/convertor.py:31-33 | a label is the position or nothing; the position exactly when the gap is under 1.3 frames or the frame is later than 0.3 frames before the sample |
| Convertor.Target | src/convertor.py:28-30 | the counter after a sample is the first count, not below the current one, whose nominal time is not before the sample |
| Convertor.Emit | src/convertor.py:28-35 | one pair per frame read |
| Convertor.EmitAt | src/convertor.py:29-35 | the `j`-th pair holds the `j`-th frame read and the label for the counter after that read |
| Convertor.Sync | src/convertor.py:26-37 | the counter never goes back, one pair per count, and the `i`-th pair holds the `i`-th frame read |
| Convertor.Synchronize | src/convertor.py:17-37 | the nested loop computes `Sync` from counter 0 and previous time 0 |
| Convertor.CatchUp | src/convertor.py:28-35 | the inner loop ends at `Target` and emits `Emit` |
| Convertor.SyncLabelsFromSamples | src/convertor.py:31-33 | every label is the position of some sample |
| Convertor.DenseAllLabelled | src/convertor.py:32 | when every sample is less than 1.3 frames after the one before, every frame is labelled |
| Convertor.SparseLabels | src/convertor.py:32 | after a longer gap a frame is labelled exactly when its nominal time is later than 0.3 frames before the sample |
| Convertor.ClockCatchesUp | src/convertor.py:28 | after all samples the clock is not before the last sample |
| Convertor.ClosedCaptureYieldsNothing | src/convertor.py:27 | a capture closed from the start yields nothing |
| Convertor.OneCircleExample | src/convertor.py:17-37 | one circle at 500 ms: thirty frames, only the last labelled |
| Convertor.Convert | src/convertor.py:26 | the beatmap's samples through the synchronizer; a missing object raises TypeError unless the capture closed first |
| Convertor.GapFill | src/convertor.py:68 | one position per unlabelled frame, the last being the rounded labelled position |
| Convertor.ToData | src/convertor.py:50-76 | one click per frame, 0 exactly when unlabelled; one position per frame with each unlabelled run filled between the labels around it; a trailing unlabelled run raises TypeError |
| Convertor.KeyValue | src/convertor.py:88-89 | the key is the text before the first `=` and the value the rest, or empty without `=` |
| Convertor.RowValue | src/convertor.py:91-97 | `size` reads as a tuple of ints, `delay` as an int, anything else as text |
| Convertor.ReadParams | src/convertor.py:86-97 | the loop computes `ParamsFrom` from no parameters |
| Convertor.ParamsOk | src/convertor.py:86-97 | reading succeeds exactly when every row's value parses, and fails only with ValueError |
| Convertor.ParamsKeys | src/convertor.py:86-97 | the keys are those present before plus every row's key |
| Convertor.ParamsUntouched | src/convertor.py:86-97 | a key no row names keeps its value |
| Convertor.ParamsLastWins | src/convertor.py:86-97 | a key's value is the one its last row gives it |
| Convertor.ParamsTyped | src/convertor.py:91-97 | every value has the type its key calls for |
| Convertor.ValueErrorOnly | src/convertor.py:93-95 | a value that does not parse raises ValueError |
| Convertor.Construct | src/convertor.py:11-15 | an unknown keyword or a missing path raises TypeError; the delay defaults to 0 and the size to 1280 by 720 |
| Convertor.FromFile | src/convertor.py:82-99 | the rows split at newlines are read by `ParamsFrom`, whose error is passed on, and then given to `Construct`; the paths come out as text, the delay as an int and the size as a tuple of ints |

## Left out

- Bezier sampling and length estimation (`bezier_curve`, `bezier_curve_evenly_spaced`, `estimate_length`): numpy/scipy floating-point code, supplied by the `Numerics` parameter. The first `b_curve` definition is shadowed by the second and is not modelled.
- `math.sqrt`, `math.atan2`, `math.cos` and `math.sin`: supplied by the `Numerics` parameter. That covers the radius and angles of `p_curve`, the segment lengths of `calculate_length` and the spinner's circle. `p_curve`'s `r // 2` length hint is unused by the sampling and not modelled.
- Floating point: every float is an exact real. Rounding error, NaN and infinity are not modelled. Where the source would produce NaN or infinity, the model reports the ValueError that the first operation to read the number raises:
  - segment lengths adding up to zero: `SplitTime` returns `None`, and `LinePath` fails directly; the NaN step count fails in `floor`;
  - `get_t` rescaling by an empty share: the numpy division gives NaN or infinity, and the cosine or the rounding of the sampled point raises. `GetT` returns that ValueError itself.
- `float(str)` and `int(str)` accept only plain decimal text. Exponents, `inf`/`nan`, underscores and non-ASCII digits are not modelled.
- File and video I/O: opening and reading files, `cv2.VideoCapture`, `VideoWriter`, `Convertor.write`, PNG encoding, the zip archive, JSON output and tqdm. The beatmap is given as its lines, each without its terminator; the capture as two functions of the frame count.
- `PixelConvertor` (src/pixel_convertor.py): screen scaling read from the display at import time. `to_data` is modelled with `convert` as the identity, and `set_size` is left out.
- main.py, `draw_points`, `Pixel.__div__`, `Pixel.__pow__` and the `__repr__` methods: command line, plotting, and operators not reached by the modelled code.
- `Difficulty` (src/difficulty.py) is not part of this model. The record is built from the dictionary by a `readDifficulty` parameter, and only its slider multiplier is read: the field `sliderMutiplier`, spelt as the source's `slider_mutiplier`.
- `Pixel.__eq__` compares printed forms. The model compares coordinates, so `Pixel(1, 2)` and `Pixel(1.0, 2.0)`, equal here, print differently in Python.
- Generators are modelled as whole sequences. The laziness that matters is kept: `Convert` raises the TypeError of a missing object only if the synchronizer asks for its samples.
- Builtins.ParseReal: its own contract only says a digit is present. Its value on integer text is stated by `ParseRealOfInteger`.

## Findings

| source | as written | input that shows it | evidently intended | confidence | as-written member | corrected member |
|---|---|---|---|---|---|---|
| src/file.py:9-15 | `init` is assigned only while it is `None`, so every timing point after the first is built with the FIRST point as `prev`; an inherited point after a tempo change copies the first tempo's beat length | timing rows `0,500,...,1`, `1000,250,...,1`, `2000,-200,...,0`: the speed point at 2000 ms gets base step 500 instead of 250, so its sliders last twice as long | each point inherits from the point just before it, so a speed point takes the tempo in force | high; not executed | Beatmap.AsWrittenKeepsFirstTempo | Beatmap.RunningKeepsLatestTempo |

`Beatmap.Load` follows the code as written and proves that its chain carries the first tempo (`AsWrittenAnchored`). The corrected chain is `Beatmap.Chain`, equal to `RunningChain`. `RunningChainTempo` proves that it is tempo-consistent, and `GoverningTempo` proves that a speed point then has the tempo of the nearest tempo point before it. The two chains agree when a map has one tempo point (`ChainsAgreeWithOneTempo`).
